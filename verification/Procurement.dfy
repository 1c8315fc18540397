/**
 Procurement leakage analysis: findings per invoice, and the allocation of recoverable value that
 counts no part of an invoice twice. Amounts and prices are real numbers of cents; a value rounded
 to two decimals of a dollar is a whole number of cents, ties going to the even one.
 */
module Procurement {
  import opened Numbers
  import opened Outcomes
  import opened Text

  /** Nearest whole number, ties to even. */
  function Round(x: real): int {
    var low := x.Floor;
    var part := x - low as real;
    if part < 0.5 || (part == 0.5 && low % 2 == 0) then low else low + 1
  }

  /** A multiple of an amount in whole cents. */
  function Share(amount: real, multiplier: real): int { Round(amount * multiplier) }

  /** The nearest whole number, and of two equally near ones the even one. */
  predicate IsRounded(n: int, x: real) {
    x - 0.5 <= n as real <= x + 0.5 && (n as real == x - 0.5 || n as real == x + 0.5 ==> n % 2 == 0)
  }

  lemma RoundIsNearest(x: real, n: int)
    ensures IsRounded(n, x) <==> n == Round(x)
  {
  }

  lemma RoundIsNear(x: real)
    ensures x - 0.5 <= Round(x) as real <= x + 0.5
  {
  }

  /** Rounding does not cross a whole number. */
  lemma RoundStaysBeside(x: real, n: int)
    ensures n as real <= x ==> n <= Round(x)
    ensures x <= n as real ==> Round(x) <= n
  {
  }

  lemma RoundWhole(n: int)
    ensures Round(n as real) == n
  {
  }

  // ----- Findings -----

  datatype Action = DuplicateInvoice | PriceVariance | UnapprovedVendor | MissingInvoiceId

  function Priority(a: Action): nat {
    match a
    case DuplicateInvoice => 0
    case PriceVariance => 1
    case UnapprovedVendor => 2
    case MissingInvoiceId => 3
  }

  /** `baseline` is the baseline price of its item, when there is one. */
  datatype Invoice = Invoice(vendor: string, id: string, amount: real, baseline: Option<real>, quantity: real,
        unitPrice: real)
  {
    /** The numbers that are read have to be nonnegative; prices are read only where they are used. */
    predicate Valid() {
      amount >= 0.0 && quantity >= 0.0
          && (baseline.Some? && quantity > 0.0 ==> baseline.value >= 0.0 && unitPrice >= 0.0)
    }
  }

  /** `fold` is the case folding of names. */
  datatype Policy = Policy(duplicateAbove: real, flagUnapproved: bool, approved: set<string>, variancePercent: real,
                           duplicateShare: real, unapprovedShare: real, varianceShare: real, fold: string -> string)

  /** `record` is the invoice at position `index`. */
  datatype Finding = Finding(index: nat, record: Invoice, action: Action, gross: int)

  datatype Signature = Signature(vendor: string, id: string, amount: real)

  function SignatureOf(p: Policy, v: Invoice): Signature {
    Signature(p.fold(Strip(v.vendor)), p.fold(Strip(v.id)), v.amount)
  }

  predicate HasId(v: Invoice) { Strip(v.id) != "" }

  /** The signatures met so far. */
  function Signatures(p: Policy, vs: seq<Invoice>): set<Signature> {
    if vs == [] then {}
    else
      var last := vs[|vs| - 1];
      Signatures(p, vs[..|vs| - 1]) + if HasId(last) then {SignatureOf(p, last)} else {}
  }

  function IdFinding(p: Policy, v: Invoice, i: nat, seen: bool): seq<Finding> {
    if !HasId(v) then [Finding(i, v, MissingInvoiceId, 0)]
    else if seen && v.amount > p.duplicateAbove
        then [Finding(i, v, DuplicateInvoice, Share(v.amount, p.duplicateShare))]
    else []
  }

  function VendorFinding(p: Policy, v: Invoice, i: nat): seq<Finding> {
    var vendor := p.fold(Strip(v.vendor));
    if p.flagUnapproved && vendor !in p.approved && vendor != "unknown"
    then [Finding(i, v, UnapprovedVendor, Share(v.amount, p.unapprovedShare))] else []
  }

  function PriceFinding(p: Policy, v: Invoice, i: nat): seq<Finding> {
    if v.baseline.None? || v.quantity <= 0.0 then []
    else
      var base := v.baseline.value;
      var over := if base > 0.0 then (v.unitPrice - base) / base * 100.0 else 0.0;
      var delta := (v.unitPrice - base) * v.quantity;
      if over > p.variancePercent
      then [Finding(i, v, PriceVariance, Share(if delta < 0.0 then 0.0 else delta, p.varianceShare))] else []
  }

  function FindingsOf(p: Policy, v: Invoice, i: nat, seen: bool): seq<Finding> {
    IdFinding(p, v, i, seen) + VendorFinding(p, v, i) + PriceFinding(p, v, i)
  }

  /** What is found on an invoice that comes after others. */
  function FindingsAfter(p: Policy, earlier: seq<Invoice>, v: Invoice): seq<Finding> {
    FindingsOf(p, v, |earlier|, SignatureOf(p, v) in Signatures(p, earlier))
  }

  // ----- What is found, and when -----

  /** Bills of one vendor with one number, both by their folded stripped text, and one amount. */
  predicate SameBill(p: Policy, a: Invoice, b: Invoice) {
    p.fold(Strip(a.vendor)) == p.fold(Strip(b.vendor)) && p.fold(Strip(a.id)) == p.fold(Strip(b.id))
        && a.amount == b.amount
  }

  ghost predicate Repeated(p: Policy, earlier: seq<Invoice>, v: Invoice) {
    exists j :: 0 <= j < |earlier| && Strip(earlier[j].id) != "" && SameBill(p, earlier[j], v)
  }

  /** The unit price is over the baseline by more than the policy's percentage; nothing is over a free item by any. */
  predicate IsDear(p: Policy, v: Invoice) {
    && v.baseline.Some? && v.quantity > 0.0
    && if v.baseline.value > 0.0 then 100.0 * (v.unitPrice - v.baseline.value) / v.baseline.value > p.variancePercent
       else p.variancePercent < 0.0
  }

  predicate IsUnapproved(p: Policy, v: Invoice) {
    p.flagUnapproved && p.fold(Strip(v.vendor)) !in p.approved && p.fold(Strip(v.vendor)) != "unknown"
  }

  /** The condition under which an invoice gets a finding. */
  ghost predicate IsFound(p: Policy, earlier: seq<Invoice>, v: Invoice, a: Action) {
    match a
    case MissingInvoiceId => Strip(v.id) == ""
    case DuplicateInvoice => Strip(v.id) != "" && v.amount > p.duplicateAbove && Repeated(p, earlier, v)
    case UnapprovedVendor => IsUnapproved(p, v)
    case PriceVariance => IsDear(p, v)
  }

  /** The part of the invoice that a finding is about, before rounding. */
  function AtStake(p: Policy, v: Invoice, a: Action): real {
    match a
    case MissingInvoiceId => 0.0
    case DuplicateInvoice => v.amount * p.duplicateShare
    case UnapprovedVendor => v.amount * p.unapprovedShare
    case PriceVariance =>
      if v.baseline.Some? && v.unitPrice > v.baseline.value && v.quantity > 0.0
      then (v.unitPrice - v.baseline.value) * v.quantity * p.varianceShare else 0.0
  }

  lemma {:induction false} SeenIffRepeated(p: Policy, earlier: seq<Invoice>, v: Invoice)
    ensures SignatureOf(p, v) in Signatures(p, earlier) <==> Repeated(p, earlier, v)
    decreases |earlier|
  {
    if earlier != [] {
      var init, last := earlier[..|earlier| - 1], earlier[|earlier| - 1];
      SeenIffRepeated(p, init, v);
      RepeatedLast(p, init, last, v);
      assert earlier == init + [last];
    }
  }

  lemma RepeatedLast(p: Policy, init: seq<Invoice>, last: Invoice, v: Invoice)
    ensures Repeated(p, init + [last], v) <==> Repeated(p, init, v) || (Strip(last.id) != "" && SameBill(p, last, v))
  {
    var earlier := init + [last];
    assert earlier[|init|] == last;
    if Repeated(p, init, v) {
      var j :| 0 <= j < |init| && Strip(init[j].id) != "" && SameBill(p, init[j], v);
      assert earlier[j] == init[j];
    }
    if Repeated(p, earlier, v) {
      var j :| 0 <= j < |earlier| && Strip(earlier[j].id) != "" && SameBill(p, earlier[j], v);
      assert j < |init| ==> init[j] == earlier[j];
    }
  }

  lemma PercentOver(v: real, base: real, limit: real)
    requires base > 0.0
    ensures 100.0 * (v - base) / base > limit <==> (v - base) / base * 100.0 > limit
  {
  }

  /** The price difference that counts is the positive one. */
  lemma PriceAtStake(p: Policy, v: Invoice)
    requires v.baseline.Some? && v.quantity > 0.0
    ensures var delta := (v.unitPrice - v.baseline.value) * v.quantity;
            (if delta < 0.0 then 0.0 else delta) * p.varianceShare == AtStake(p, v, PriceVariance)
  {
    DeltaSign(v.unitPrice - v.baseline.value, v.quantity);
  }

  lemma DearIff(p: Policy, v: Invoice)
    requires v.baseline.Some? && v.quantity > 0.0
    ensures var base := v.baseline.value;
            IsDear(p, v) <==> (if base > 0.0 then (v.unitPrice - base) / base * 100.0 else 0.0) > p.variancePercent
  {
    if v.baseline.value > 0.0 {
      PercentOver(v.unitPrice, v.baseline.value, p.variancePercent);
    }
  }

  lemma ShareRounds(amount: real, multiplier: real)
    ensures IsRounded(Share(amount, multiplier), amount * multiplier)
  {
    RoundIsNearest(amount * multiplier, Share(amount, multiplier));
  }

  lemma StakeRounds(p: Policy, v: Invoice)
    requires v.baseline.Some? && v.quantity > 0.0
    ensures var delta := (v.unitPrice - v.baseline.value) * v.quantity;
            IsRounded(Share(if delta < 0.0 then 0.0 else delta, p.varianceShare), AtStake(p, v, PriceVariance))
  {
    var delta := (v.unitPrice - v.baseline.value) * v.quantity;
    PriceAtStake(p, v);
    ShareRounds(if delta < 0.0 then 0.0 else delta, p.varianceShare);
  }

  ghost predicate IsPriceFinding(p: Policy, v: Invoice, i: nat, f: Finding) {
    f.action == PriceVariance && f.index == i && f.record == v && IsRounded(f.gross, AtStake(p, v, PriceVariance))
  }

  lemma PriceFindingIff(p: Policy, v: Invoice, i: nat)
    ensures var fs := PriceFinding(p, v, i);
            (fs != [] <==> IsDear(p, v)) && |fs| <= 1 && (fs != [] ==> IsPriceFinding(p, v, i, fs[0]))
  {
    if v.baseline.Some? && v.quantity > 0.0 {
      DearIff(p, v);
      StakeRounds(p, v);
    }
  }

  lemma DeltaSign(d: real, q: real)
    requires q > 0.0
    ensures d * q > 0.0 <==> d > 0.0
    ensures d * q < 0.0 <==> d < 0.0
  {
  }

  /** The finding of an action, at most one. */
  ghost predicate FoundOnce(p: Policy, earlier: seq<Invoice>, v: Invoice, fs: seq<Finding>, a: Action) {
    && ((exists f :: f in fs && f.action == a) <==> IsFound(p, earlier, v, a))
    && (forall j, k :: 0 <= j < k < |fs| && fs[j].action == a ==> fs[k].action != a)
  }

  /**
   An invoice that comes after others gets each kind of finding exactly under its condition and once,
   for the invoice itself, with the rounded value at stake.
   */
  lemma FindingsIff(p: Policy, earlier: seq<Invoice>, v: Invoice)
    ensures var fs := FindingsAfter(p, earlier, v);
            && (forall a :: FoundOnce(p, earlier, v, fs, a))
            && (forall j :: 0 <= j < |fs| ==>
                  fs[j].index == |earlier| && fs[j].record == v && IsRounded(fs[j].gross, AtStake(p, v, fs[j].action)))
  {
    var i := |earlier|;
    var ids := IdFinding(p, v, i, SignatureOf(p, v) in Signatures(p, earlier));
    var vendors, prices := VendorFinding(p, v, i), PriceFinding(p, v, i);
    SeenIffRepeated(p, earlier, v);
    PriceFindingIff(p, v, i);
    SharesAreRounded(p, v);
    var fs := FindingsAfter(p, earlier, v);
    assert fs == ids + vendors + prices;
    forall a
      ensures FoundOnce(p, earlier, v, fs, a)
    {
      FoundParts(p, earlier, v, ids, vendors, prices, a);
    }
  }

  lemma SharesAreRounded(p: Policy, v: Invoice)
    ensures IsRounded(Share(v.amount, p.duplicateShare), AtStake(p, v, DuplicateInvoice))
    ensures IsRounded(Share(v.amount, p.unapprovedShare), AtStake(p, v, UnapprovedVendor))
    ensures IsRounded(0, AtStake(p, v, MissingInvoiceId))
  {
    ShareRounds(v.amount, p.duplicateShare);
    ShareRounds(v.amount, p.unapprovedShare);
  }

  lemma PartsDiffer(ids: seq<Finding>, vendors: seq<Finding>, prices: seq<Finding>)
    requires |ids| <= 1 && |vendors| <= 1 && |prices| <= 1
    requires ids != [] ==> ids[0].action in {MissingInvoiceId, DuplicateInvoice}
    requires vendors != [] ==> vendors[0].action == UnapprovedVendor
    requires prices != [] ==> prices[0].action == PriceVariance
    ensures var fs := ids + vendors + prices; forall j, k :: 0 <= j < k < |fs| ==> fs[j].action != fs[k].action
  {
  }

  lemma FoundParts(p: Policy, earlier: seq<Invoice>, v: Invoice, ids: seq<Finding>, vendors: seq<Finding>,
                   prices: seq<Finding>, a: Action)
    requires |ids| <= 1 && |vendors| <= 1 && |prices| <= 1
    requires ids != [] ==> ids[0].action in {MissingInvoiceId, DuplicateInvoice}
    requires ids != [] ==> IsFound(p, earlier, v, ids[0].action)
    requires ids == [] ==> !IsFound(p, earlier, v, MissingInvoiceId) && !IsFound(p, earlier, v, DuplicateInvoice)
    requires vendors != [] ==> vendors[0].action == UnapprovedVendor
    requires vendors != [] <==> IsFound(p, earlier, v, UnapprovedVendor)
    requires prices != [] ==> prices[0].action == PriceVariance
    requires prices != [] <==> IsFound(p, earlier, v, PriceVariance)
    ensures FoundOnce(p, earlier, v, ids + vendors + prices, a)
  {
    var fs := ids + vendors + prices;
    PartsDiffer(ids, vendors, prices);
    assert forall f :: f in fs <==> f in ids || f in vendors || f in prices;
    match a
    case UnapprovedVendor => assert vendors != [] ==> vendors[0] in fs;
    case PriceVariance => assert prices != [] ==> prices[0] in fs;
    case _ => assert ids != [] ==> ids[0] in fs;
  }

  function AllFindings(p: Policy, vs: seq<Invoice>): seq<Finding> {
    if vs == [] then [] else AllFindings(p, vs[..|vs| - 1]) + FindingsAfter(p, vs[..|vs| - 1], vs[|vs| - 1])
  }

  /** All checks of one invoice; a reported duplicate is not remembered again. */
  method Inspect(p: Policy, earlier: seq<Invoice>, v: Invoice, seen: set<Signature>)
    returns (found: seq<Finding>, seen': set<Signature>)
    requires seen == Signatures(p, earlier)
    ensures found == FindingsAfter(p, earlier, v)
    ensures seen' == Signatures(p, earlier + [v])
  {
    var i, signature := |earlier|, SignatureOf(p, v);
    assert (earlier + [v])[..i] == earlier;
    found, seen' := [], seen;
    if !HasId(v) {
      found := [Finding(i, v, MissingInvoiceId, 0)];
    } else if signature in seen && v.amount > p.duplicateAbove {
      found := [Finding(i, v, DuplicateInvoice, Share(v.amount, p.duplicateShare))];
    } else {
      seen' := seen + {signature};
    }
    found := found + VendorFinding(p, v, i) + PriceFinding(p, v, i);
  }

  method Detect(p: Policy, vs: seq<Invoice>) returns (findings: seq<Finding>)
    ensures findings == AllFindings(p, vs)
  {
    findings := [];
    var seen: set<Signature> := {};
    var i := 0;
    while i < |vs|
      invariant 0 <= i <= |vs|
      invariant seen == Signatures(p, vs[..i])
      invariant findings == AllFindings(p, vs[..i])
    {
      var mine;
      mine, seen := Inspect(p, vs[..i], vs[i], seen);
      assert vs[..i] + [vs[i]] == vs[..i + 1] && vs[..i + 1][..i] == vs[..i];
      findings := findings + mine;
      i := i + 1;
    }
    assert vs[..i] == vs;
  }

  // ----- Duplicates per signature -----

  /** How many invoices carry a signature. */
  function Occurrences(p: Policy, vs: seq<Invoice>, s: Signature): nat {
    if vs == [] then 0
    else
      var last := vs[|vs| - 1];
      Occurrences(p, vs[..|vs| - 1], s) + if HasId(last) && SignatureOf(p, last) == s then 1 else 0
  }

  predicate IsDuplicateOf(p: Policy, s: Signature, f: Finding) {
    f.action == DuplicateInvoice && SignatureOf(p, f.record) == s
  }

  /** How many duplicate findings a signature has. */
  function DuplicatesIn(p: Policy, s: Signature, fs: seq<Finding>): nat {
    if fs == [] then 0
    else DuplicatesIn(p, s, fs[..|fs| - 1]) + if IsDuplicateOf(p, s, fs[|fs| - 1]) then 1 else 0
  }

  lemma {:induction false} DuplicatesAdd(p: Policy, s: Signature, a: seq<Finding>, b: seq<Finding>)
    ensures DuplicatesIn(p, s, a + b) == DuplicatesIn(p, s, a) + DuplicatesIn(p, s, b)
  {
    if b == [] {
      assert a + b == a;
    } else {
      assert (a + b)[..|a + b| - 1] == a + b[..|b| - 1];
      DuplicatesAdd(p, s, a, b[..|b| - 1]);
    }
  }

  lemma {:induction false} NoDuplicatesIn(p: Policy, s: Signature, fs: seq<Finding>)
    requires forall j :: 0 <= j < |fs| ==> fs[j].action != DuplicateInvoice
    ensures DuplicatesIn(p, s, fs) == 0
  {
    if fs != [] {
      NoDuplicatesIn(p, s, fs[..|fs| - 1]);
    }
  }

  /**
   Only the first part of an invoice's findings can be a duplicate, and it is one exactly for a
   repeat above the threshold.
   */
  lemma PartsOfFindings(p: Policy, v: Invoice, i: nat, seen: bool) returns (first: seq<Finding>, others: seq<Finding>)
    ensures FindingsOf(p, v, i, seen) == first + others && |first| <= 1
    ensures first != [] && first[0].action == DuplicateInvoice <==> HasId(v) && seen && v.amount > p.duplicateAbove
    ensures forall j :: 0 <= j < |first| ==> first[j].record == v
    ensures forall j :: 0 <= j < |others| ==> others[j].action != DuplicateInvoice
  {
    first, others := IdFinding(p, v, i, seen), VendorFinding(p, v, i) + PriceFinding(p, v, i);
    assert FindingsOf(p, v, i, seen) == first + others;
  }

  lemma DuplicatesOfParts(p: Policy, s: Signature, first: seq<Finding>, others: seq<Finding>)
    requires |first| <= 1 && forall j :: 0 <= j < |others| ==> others[j].action != DuplicateInvoice
    ensures DuplicatesIn(p, s, first + others) == if first != [] && IsDuplicateOf(p, s, first[0]) then 1 else 0
  {
    DuplicatesAdd(p, s, first, others);
    NoDuplicatesIn(p, s, others);
    if |first| == 1 {
      assert first[..0] == [];
    }
  }

  /** An invoice that repeats an earlier one above the threshold. */
  predicate Repeats(p: Policy, earlier: seq<Invoice>, v: Invoice) {
    HasId(v) && SignatureOf(p, v) in Signatures(p, earlier) && v.amount > p.duplicateAbove
  }

  /** How many repeats of a signature there are. */
  function RepeatsIn(p: Policy, vs: seq<Invoice>, s: Signature): nat {
    if vs == [] then 0
    else
      var earlier, v := vs[..|vs| - 1], vs[|vs| - 1];
      RepeatsIn(p, earlier, s) + if SignatureOf(p, v) == s && Repeats(p, earlier, v) then 1 else 0
  }

  lemma DuplicatesOfOne(p: Policy, s: Signature, earlier: seq<Invoice>, v: Invoice, mine: seq<Finding>)
    requires mine == FindingsAfter(p, earlier, v)
    ensures DuplicatesIn(p, s, mine) == if SignatureOf(p, v) == s && Repeats(p, earlier, v) then 1 else 0
  {
    var first, others := PartsOfFindings(p, v, |earlier|, SignatureOf(p, v) in Signatures(p, earlier));
    DuplicatesOfParts(p, s, first, others);
  }

  lemma DuplicatesOfNext(p: Policy, s: Signature, earlier: seq<Invoice>, v: Invoice, before: seq<Finding>,
        all: seq<Finding>)
    requires all == before + FindingsAfter(p, earlier, v)
    ensures DuplicatesIn(p, s, all) == DuplicatesIn(p, s, before) + if SignatureOf(p, v) == s && Repeats(p, earlier, v)
            then 1 else 0
  {
    DuplicatesOfOne(p, s, earlier, v, FindingsAfter(p, earlier, v));
    DuplicatesAdd(p, s, before, FindingsAfter(p, earlier, v));
  }

  lemma {:induction false} DuplicatesAreRepeats(p: Policy, vs: seq<Invoice>, s: Signature)
    ensures DuplicatesIn(p, s, AllFindings(p, vs)) == RepeatsIn(p, vs, s)
  {
    if vs != [] {
      var earlier, v := vs[..|vs| - 1], vs[|vs| - 1];
      DuplicatesAreRepeats(p, earlier, s);
      DuplicatesOfNext(p, s, earlier, v, AllFindings(p, earlier), AllFindings(p, vs));
    }
  }

  lemma {:induction false} SeenIffOccurs(p: Policy, vs: seq<Invoice>, s: Signature)
    ensures s in Signatures(p, vs) <==> Occurrences(p, vs, s) > 0
  {
    if vs != [] {
      SeenIffOccurs(p, vs[..|vs| - 1], s);
    }
  }

  lemma {:induction false} RepeatsAreLaterOccurrences(p: Policy, vs: seq<Invoice>, s: Signature)
    ensures RepeatsIn(p, vs, s) == if s.amount > p.duplicateAbove then Max(0, Occurrences(p, vs, s) - 1) else 0
  {
    if vs != [] {
      SeenIffOccurs(p, vs[..|vs| - 1], s);
      RepeatsAreLaterOccurrences(p, vs[..|vs| - 1], s);
    }
  }

  /** A signature above the threshold is reported once for each occurrence after its first; below it, never. */
  lemma DuplicatesPerSignature(p: Policy, vs: seq<Invoice>, s: Signature)
    ensures DuplicatesIn(p, s, AllFindings(p, vs)) == if s.amount > p.duplicateAbove
            then Max(0, Occurrences(p, vs, s) - 1) else 0
  {
    DuplicatesAreRepeats(p, vs, s);
    RepeatsAreLaterOccurrences(p, vs, s);
  }

  // ----- Priority order -----

  /** Insertion behind everything of the same or a higher priority: the stable sort. */
  function Insert(f: Finding, sorted: seq<Finding>): (r: seq<Finding>)
    ensures |r| == |sorted| + 1
  {
    if sorted == [] then [f]
    else if Priority(f.action) <= Priority(sorted[0].action) then [f] + sorted
    else [sorted[0]] + Insert(f, sorted[1..])
  }

  function ByPriority(fs: seq<Finding>): (r: seq<Finding>)
    ensures |r| == |fs|
  {
    if fs == [] then [] else Insert(fs[0], ByPriority(fs[1..]))
  }

  ghost predicate Ordered(fs: seq<Finding>) {
    forall i, j :: 0 <= i < j < |fs| ==> Priority(fs[i].action) <= Priority(fs[j].action)
  }

  function OnlyOne(f: Finding, priority: nat): seq<Finding> {
    if Priority(f.action) == priority then [f] else []
  }

  /** The findings of one priority, in order. */
  function Only(fs: seq<Finding>, priority: nat): seq<Finding> {
    if fs == [] then [] else OnlyOne(fs[0], priority) + Only(fs[1..], priority)
  }

  lemma OnlyCons(f: Finding, fs: seq<Finding>, priority: nat)
    ensures Only([f] + fs, priority) == OnlyOne(f, priority) + Only(fs, priority)
  {
    assert ([f] + fs)[1..] == fs;
  }

  lemma {:induction false} InsertIsPermutation(f: Finding, sorted: seq<Finding>)
    ensures multiset(Insert(f, sorted)) == multiset(sorted) + multiset{f}
  {
    if sorted != [] {
      assert sorted == [sorted[0]] + sorted[1..];
      if Priority(f.action) > Priority(sorted[0].action) {
        InsertIsPermutation(f, sorted[1..]);
      }
    }
  }

  ghost predicate AtLeast(fs: seq<Finding>, priority: nat) {
    forall j :: 0 <= j < |fs| ==> priority <= Priority(fs[j].action)
  }

  lemma {:induction false} InsertAtLeast(f: Finding, sorted: seq<Finding>, priority: nat)
    requires AtLeast(sorted, priority) && priority <= Priority(f.action)
    ensures AtLeast(Insert(f, sorted), priority)
  {
    if sorted != [] && Priority(f.action) > Priority(sorted[0].action) {
      InsertAtLeast(f, sorted[1..], priority);
    }
  }

  lemma OrderedCons(f: Finding, fs: seq<Finding>)
    requires Ordered(fs) && AtLeast(fs, Priority(f.action))
    ensures Ordered([f] + fs)
  {
  }

  lemma {:induction false} InsertKeepsOrder(f: Finding, sorted: seq<Finding>)
    requires Ordered(sorted)
    ensures Ordered(Insert(f, sorted))
  {
    if sorted != [] {
      if Priority(f.action) > Priority(sorted[0].action) {
        InsertKeepsOrder(f, sorted[1..]);
        InsertAtLeast(f, sorted[1..], Priority(sorted[0].action));
        OrderedCons(sorted[0], Insert(f, sorted[1..]));
      } else {
        OrderedCons(f, sorted);
      }
    }
  }

  lemma {:induction false} InsertIsStable(f: Finding, sorted: seq<Finding>, priority: nat)
    ensures Only(Insert(f, sorted), priority) == OnlyOne(f, priority) + Only(sorted, priority)
  {
    if sorted == [] || Priority(f.action) <= Priority(sorted[0].action) {
      OnlyCons(f, sorted, priority);
      assert [f] + sorted == Insert(f, sorted);
    } else {
      OnlyCons(sorted[0], Insert(f, sorted[1..]), priority);
      InsertIsStable(f, sorted[1..], priority);
    }
  }

  lemma {:induction false} ByPriorityOrders(fs: seq<Finding>)
    ensures Ordered(ByPriority(fs)) && multiset(ByPriority(fs)) == multiset(fs)
  {
    if fs != [] {
      ByPriorityOrders(fs[1..]);
      InsertKeepsOrder(fs[0], ByPriority(fs[1..]));
      InsertIsPermutation(fs[0], ByPriority(fs[1..]));
      assert fs == [fs[0]] + fs[1..];
    }
  }

  /** Duplicates are served before price variances, those before unapproved vendors, and missing numbers last. */
  lemma ByPriorityRanks(fs: seq<Finding>, i: nat, j: nat)
    requires i < j < |fs|
    ensures var a, b := ByPriority(fs)[i].action, ByPriority(fs)[j].action;
            && (b == DuplicateInvoice ==> a == DuplicateInvoice)
            && (b == PriceVariance ==> a == DuplicateInvoice || a == PriceVariance)
            && (a == MissingInvoiceId ==> b == MissingInvoiceId)
  {
    ByPriorityOrders(fs);
  }

  lemma {:induction false} ByPriorityIsStable(fs: seq<Finding>, priority: nat)
    ensures Only(ByPriority(fs), priority) == Only(fs, priority)
  {
    if fs != [] {
      ByPriorityIsStable(fs[1..], priority);
      InsertIsStable(fs[0], ByPriority(fs[1..]), priority);
    }
  }

  // ----- Allocation of one invoice -----

  datatype Recommendation = Recommendation(action: Action, gross: int, granted: int, overlap: int)

  function Allocated(f: Finding, remaining: real): int {
    Round(if (f.gross as real) < remaining then f.gross as real else remaining)
  }

  function Left(f: Finding, remaining: real): int {
    var rest := remaining - Allocated(f, remaining) as real;
    Round(if rest < 0.0 then 0.0 else rest)
  }

  function Allocate(remaining: real, fs: seq<Finding>): (r: seq<Recommendation>)
    ensures |r| == |fs|
    decreases |fs|
  {
    if fs == [] then []
    else
      var given := Allocated(fs[0], remaining);
      [Recommendation(fs[0].action, fs[0].gross, given, fs[0].gross - given)]
          + Allocate(Left(fs[0], remaining) as real, fs[1..])
  }

  ghost predicate NonNegative(fs: seq<Finding>) {
    forall j :: 0 <= j < |fs| ==> fs[j].gross >= 0
  }

  function GrossOf(fs: seq<Finding>, n: nat): int
    requires n <= |fs|
  {
    if n == 0 then 0 else fs[0].gross + GrossOf(fs[1..], n - 1)
  }

  function TotalOf(rs: seq<Recommendation>): int {
    if rs == [] then 0 else rs[0].granted + TotalOf(rs[1..])
  }

  lemma WholeStep(f: Finding, remaining: nat)
    requires f.gross >= 0
    ensures Allocated(f, remaining as real) == Min(f.gross, remaining)
    ensures Left(f, remaining as real) == remaining - Min(f.gross, remaining)
  {
    RoundWhole(Min(f.gross, remaining));
    RoundWhole(remaining - Min(f.gross, remaining));
  }

  /** The greedy rule in closed form: each finding gets its gross value as far as the earlier ones leave room. */
  lemma {:induction false} WholeAllocation(amount: nat, fs: seq<Finding>, k: nat)
    requires NonNegative(fs) && k < |fs|
    ensures GrossOf(fs, k) >= 0
    ensures var r := Allocate(amount as real, fs)[k];
            && r.action == fs[k].action && r.gross == fs[k].gross == r.granted + r.overlap
            && r.granted == Min(fs[k].gross, Max(0, amount - GrossOf(fs, k)))
    decreases k
  {
    WholeStep(fs[0], amount);
    if k > 0 {
      WholeAllocation(amount - Min(fs[0].gross, amount), fs[1..], k - 1);
    }
  }

  /** The allocations of a whole-cent invoice add up to the invoice or to all that was found, whichever is less. */
  lemma {:induction false} WholeTotal(amount: nat, fs: seq<Finding>)
    requires NonNegative(fs)
    ensures GrossOf(fs, |fs|) >= 0 && TotalOf(Allocate(amount as real, fs)) == Min(amount, GrossOf(fs, |fs|))
  {
    if fs != [] {
      WholeStep(fs[0], amount);
      var left := amount - Min(fs[0].gross, amount);
      WholeTotal(left, fs[1..]);
      assert Allocate(amount as real, fs)[1..] == Allocate(left as real, fs[1..]);
    }
  }

  lemma AnyStep(f: Finding, amount: real)
    requires amount >= 0.0 && f.gross >= 0
    ensures 0 <= Allocated(f, amount) <= f.gross && 0 <= Left(f, amount)
    ensures Allocated(f, amount) < f.gross ==> Left(f, amount) == 0
    ensures amount - 0.5 <= (Allocated(f, amount) + Left(f, amount)) as real <= amount + 0.5
  {
    RoundIsNear(amount);
    RoundStaysBeside(amount, 0);
    RoundStaysBeside(amount, f.gross);
    RoundWhole(f.gross);
    RoundWhole(0);
    RoundIsNear(amount - f.gross as real);
    RoundStaysBeside(amount - f.gross as real, 0);
  }

  /** For any amount the sum is what was found, capped within half a cent of the invoice. */
  lemma AnyTotal(amount: real, fs: seq<Finding>) returns (cap: nat)
    requires amount >= 0.0 && NonNegative(fs)
    ensures amount - 0.5 <= cap as real <= amount + 0.5
    ensures TotalOf(Allocate(amount, fs)) == Min(cap, GrossOf(fs, |fs|))
  {
    if fs == [] {
      RoundIsNear(amount);
      cap := Round(amount);
    } else {
      AnyStep(fs[0], amount);
      cap := Allocated(fs[0], amount) + Left(fs[0], amount);
      WholeTotal(Left(fs[0], amount), fs[1..]);
      assert Allocate(amount, fs)[1..] == Allocate(Left(fs[0], amount) as real, fs[1..]);
    }
  }

  /** For any amount a finding gets something only when everything before it was served in full. */
  lemma {:induction false} EarlierFilledFirst(amount: real, fs: seq<Finding>, i: nat, j: nat)
    requires amount >= 0.0 && NonNegative(fs) && i < j < |fs|
    ensures var rs := Allocate(amount, fs);
            && rs[i].gross == rs[i].granted + rs[i].overlap && 0 <= rs[i].granted <= rs[i].gross
            && (rs[i].granted < rs[i].gross ==> rs[j].granted == 0)
    decreases i
  {
    AnyStep(fs[0], amount);
    var left := Left(fs[0], amount);
    if i > 0 {
      EarlierFilledFirst(left as real, fs[1..], i - 1, j - 1);
    } else {
      WholeAllocation(left, fs[1..], j - 1);
    }
  }

  // ----- Findings grouped by invoice -----

  function Of(fs: seq<Finding>, i: nat): seq<Finding> {
    if fs == [] then []
    else
      var last := fs[|fs| - 1];
      Of(fs[..|fs| - 1], i) + if last.index == i then [last] else []
  }

  lemma {:induction false} OfAppend(a: seq<Finding>, b: seq<Finding>, i: nat)
    ensures Of(a + b, i) == Of(a, i) + Of(b, i)
  {
    if b == [] {
      assert a + b == a;
    } else {
      assert (a + b)[..|a + b| - 1] == a + b[..|b| - 1];
      OfAppend(a, b[..|b| - 1], i);
    }
  }

  ghost predicate AllAt(fs: seq<Finding>, i: nat) {
    forall j :: 0 <= j < |fs| ==> fs[j].index == i
  }

  lemma {:induction false} OfOne(fs: seq<Finding>, at: nat, i: nat)
    requires AllAt(fs, at)
    ensures Of(fs, i) == if i == at then fs else []
  {
    if fs != [] {
      OfOne(fs[..|fs| - 1], at, i);
      assert fs == fs[..|fs| - 1] + [fs[|fs| - 1]];
    }
  }

  lemma FindingsAreAt(p: Policy, earlier: seq<Invoice>, v: Invoice)
    ensures AllAt(FindingsAfter(p, earlier, v), |earlier|)
  {
  }

  lemma OfNext(earlier: nat, before: seq<Finding>, mine: seq<Finding>, i: nat)
    requires AllAt(mine, earlier)
    ensures Of(before + mine, i) == if i == earlier then Of(before, i) + mine else Of(before, i)
  {
    OfOne(mine, earlier, i);
    OfAppend(before, mine, i);
    assert Of(before, i) + [] == Of(before, i);
  }

  function FoundOn(p: Policy, vs: seq<Invoice>, i: nat): seq<Finding> {
    if i < |vs| then FindingsAfter(p, vs[..i], vs[i]) else []
  }

  lemma FoundOnNext(p: Policy, vs: seq<Invoice>, earlier: seq<Invoice>, i: nat)
    requires vs != [] && earlier == vs[..|vs| - 1]
    ensures i != |earlier| ==> FoundOn(p, vs, i) == FoundOn(p, earlier, i)
    ensures i == |earlier| ==> FoundOn(p, vs, i) == FindingsAfter(p, earlier, vs[i]) && FoundOn(p, earlier, i) == []
  {
    if i < |earlier| {
      assert earlier[..i] == vs[..i] && earlier[i] == vs[i];
    }
  }

  /** Grouping recovers what was found on each invoice. */
  lemma {:induction false} GroupOf(p: Policy, vs: seq<Invoice>, i: nat)
    ensures Of(AllFindings(p, vs), i) == FoundOn(p, vs, i)
  {
    if vs != [] {
      var earlier, v := vs[..|vs| - 1], vs[|vs| - 1];
      GroupOf(p, earlier, i);
      FindingsAreAt(p, earlier, v);
      OfNext(|earlier|, AllFindings(p, earlier), FindingsAfter(p, earlier, v), i);
      FoundOnNext(p, vs, earlier, i);
    }
  }

  predicate InOrder(fs: seq<Finding>) {
    forall j, k :: 0 <= j < k < |fs| ==> fs[j].index <= fs[k].index
  }

  lemma {:induction false} AllInOrder(p: Policy, vs: seq<Invoice>)
    ensures InOrder(AllFindings(p, vs)) && forall j :: 0 <= j < |AllFindings(p, vs)| ==>
            AllFindings(p, vs)[j].index < |vs|
  {
    if vs != [] {
      AllInOrder(p, vs[..|vs| - 1]);
      FindingsAreAt(p, vs[..|vs| - 1], vs[|vs| - 1]);
    }
  }

  predicate Rising(order: seq<nat>) {
    forall j, k :: 0 <= j < k < |order| ==> order[j] < order[k]
  }

  predicate GroupAt(fs: seq<Finding>, grouped: map<nat, seq<Finding>>, i: nat) {
    (i in grouped <==> Of(fs, i) != []) && (i in grouped ==> grouped[i] == Of(fs, i))
  }

  /** Each invoice with findings has its group. */
  ghost predicate GroupsHold(fs: seq<Finding>, grouped: map<nat, seq<Finding>>) {
    forall i: nat :: GroupAt(fs, grouped, i)
  }

  /** The groups in order of their first finding. */
  ghost predicate OrderHolds(fs: seq<Finding>, order: seq<nat>, keys: set<nat>) {
    && Rising(order) && (forall i: nat :: i in order <==> i in keys)
    && (order != [] ==> fs != [] && order[|order| - 1] == fs[|fs| - 1].index)
  }

  ghost predicate Groups(fs: seq<Finding>, order: seq<nat>, grouped: map<nat, seq<Finding>>) {
    GroupsHold(fs, grouped) && OrderHolds(fs, order, grouped.Keys)
  }

  lemma OfSnoc(fs: seq<Finding>, f: Finding, i: nat)
    ensures Of(fs + [f], i) == if f.index == i then Of(fs, i) + [f] else Of(fs, i)
  {
    assert (fs + [f])[..|fs|] == fs;
  }

  function Taken(grouped: map<nat, seq<Finding>>, f: Finding): map<nat, seq<Finding>> {
    grouped[f.index := (if f.index in grouped then grouped[f.index] else []) + [f]]
  }

  lemma GroupTakesAt(fs: seq<Finding>, f: Finding, grouped: map<nat, seq<Finding>>, i: nat)
    requires GroupAt(fs, grouped, i)
    ensures GroupAt(fs + [f], Taken(grouped, f), i)
  {
    OfSnoc(fs, f, i);
  }

  lemma GroupTakes(fs: seq<Finding>, f: Finding, grouped: map<nat, seq<Finding>>)
    requires GroupsHold(fs, grouped)
    ensures GroupsHold(fs + [f], Taken(grouped, f))
  {
    forall i: nat
      ensures GroupAt(fs + [f], Taken(grouped, f), i)
    {
      GroupTakesAt(fs, f, grouped, i);
    }
  }

  lemma LastGroup(fs: seq<Finding>, f: Finding, order: seq<nat>, keys: set<nat>)
    requires InOrder(fs + [f]) && OrderHolds(fs, order, keys) && order != []
    ensures order[|order| - 1] <= f.index && order[|order| - 1] in keys
    ensures f.index in keys ==> order[|order| - 1] == f.index
  {
    assert (fs + [f])[|fs| - 1].index <= (fs + [f])[|fs|].index;
    assert order[|order| - 1] in order;
    if f.index in keys {
      assert f.index in order;
      var j :| 0 <= j < |order| && order[j] == f.index;
    }
  }

  lemma RisingSnoc(order: seq<nat>, x: nat)
    requires Rising(order) && (order != [] ==> order[|order| - 1] < x)
    ensures Rising(order + [x])
  {
  }

  lemma OrderGrows(fs: seq<Finding>, f: Finding, order: seq<nat>, keys: set<nat>)
    requires InOrder(fs + [f]) && OrderHolds(fs, order, keys)
    ensures OrderHolds(fs + [f], if f.index in keys then order else order + [f.index], keys + {f.index})
  {
    if order != [] {
      LastGroup(fs, f, order, keys);
    }
    if f.index in keys {
      assert f.index in order;
      assert keys + {f.index} == keys;
    } else {
      RisingSnoc(order, f.index);
    }
  }

  /** The groups in order of their first finding. */
  method Group(fs: seq<Finding>) returns (order: seq<nat>, grouped: map<nat, seq<Finding>>)
    requires InOrder(fs)
    ensures Groups(fs, order, grouped)
  {
    order, grouped := [], map[];
    var k := 0;
    while k < |fs|
      invariant 0 <= k <= |fs|
      invariant Groups(fs[..k], order, grouped)
    {
      order, grouped := TakeFinding(fs[..k], fs[k], order, grouped);
      assert fs[..k] + [fs[k]] == fs[..k + 1];
      k := k + 1;
    }
    assert fs[..k] == fs;
  }

  method TakeFinding(ghost fs: seq<Finding>, f: Finding, order: seq<nat>, grouped: map<nat, seq<Finding>>)
    returns (order': seq<nat>, grouped': map<nat, seq<Finding>>)
    requires InOrder(fs + [f]) && Groups(fs, order, grouped)
    ensures Groups(fs + [f], order', grouped')
  {
    GroupTakes(fs, f, grouped);
    OrderGrows(fs, f, order, grouped.Keys);
    order' := if f.index in grouped then order else order + [f.index];
    grouped' := Taken(grouped, f);
    assert grouped'.Keys == grouped.Keys + {f.index};
  }

  // ----- The whole report -----

  datatype AnalysisError = BadNumber | NegativeRecovery

  /** One turn of the allocation loop. */
  method AllocateOne(fs: seq<Finding>, k: nat, remaining: real, ghost rest: seq<Recommendation>)
    returns (one: Recommendation, left: real, ghost rest': seq<Recommendation>)
    requires k < |fs| && rest == Allocate(remaining, fs[k..])
    ensures rest == [one] + rest' && rest' == Allocate(left, fs[k + 1..])
  {
    var f := fs[k];
    var gross := f.gross as real;
    var given := Round(if gross < remaining then gross else remaining);
    var over := remaining - given as real;
    one := Recommendation(f.action, f.gross, given, f.gross - given);
    left := Round(if over < 0.0 then 0.0 else over) as real;
    assert fs[k..][0] == f && fs[k..][1..] == fs[k + 1..];
    rest' := Allocate(left, fs[k + 1..]);
  }

  /** The allocation loop of one invoice. */
  method AllocateInvoice(amount: real, fs: seq<Finding>) returns (r: Result<seq<Recommendation>, AnalysisError>)
    ensures r.Ok? <==> NonNegative(fs)
    ensures r.Ok? ==> r.value == Allocate(amount, fs)
  {
    var out: seq<Recommendation>, remaining, k := [], amount, 0;
    ghost var all := Allocate(amount, fs);
    ghost var rest := all;
    assert fs[0..] == fs;
    while k < |fs|
      invariant 0 <= k <= |fs|
      invariant forall j :: 0 <= j < k ==> fs[j].gross >= 0
      invariant all == out + rest && rest == Allocate(remaining, fs[k..])
    {
      if fs[k].gross < 0 {
        return Err(NegativeRecovery);
      }
      var one;
      one, remaining, rest := AllocateOne(fs, k, remaining, rest);
      out := out + [one];
      k := k + 1;
    }
    r := Ok(out);
  }

  function SumTo(xs: seq<int>, n: nat): int
    requires n <= |xs|
  {
    if n == 0 then 0 else SumTo(xs, n - 1) + xs[n - 1]
  }

  /** What is recovered on each invoice. */
  function Recovered(fs: seq<Finding>, vs: seq<Invoice>): seq<int> {
    seq(|vs|, i requires 0 <= i < |vs| => TotalOf(Allocate(vs[i].amount, ByPriority(Of(fs, i)))))
  }

  function AmountOf(vs: seq<Invoice>, n: nat): real
    requires n <= |vs|
  {
    if n == 0 then 0.0 else AmountOf(vs, n - 1) + vs[n - 1].amount
  }

  lemma {:induction false} InsertNonNegative(f: Finding, sorted: seq<Finding>)
    ensures NonNegative(Insert(f, sorted)) <==> f.gross >= 0 && NonNegative(sorted)
  {
    var r := Insert(f, sorted);
    if sorted == [] || Priority(f.action) <= Priority(sorted[0].action) {
      assert r == [f] + sorted;
      NonNegativeCons(f, sorted);
    } else {
      InsertNonNegative(f, sorted[1..]);
      NonNegativeCons(sorted[0], Insert(f, sorted[1..]));
      NonNegativeCons(sorted[0], sorted[1..]);
      assert sorted == [sorted[0]] + sorted[1..];
    }
  }

  lemma NonNegativeCons(f: Finding, fs: seq<Finding>)
    ensures NonNegative([f] + fs) <==> f.gross >= 0 && NonNegative(fs)
  {
    var r := [f] + fs;
    assert r[0] == f;
    assert forall j :: 0 <= j < |fs| ==> fs[j] == r[j + 1];
  }

  lemma {:induction false} ByPriorityNonNegative(fs: seq<Finding>)
    ensures NonNegative(ByPriority(fs)) <==> NonNegative(fs)
  {
    if fs != [] {
      ByPriorityNonNegative(fs[1..]);
      InsertNonNegative(fs[0], ByPriority(fs[1..]));
      NonNegativeCons(fs[0], fs[1..]);
      assert fs == [fs[0]] + fs[1..];
    }
  }

  lemma {:induction false} OfNonNegative(fs: seq<Finding>, i: nat)
    requires NonNegative(fs)
    ensures NonNegative(Of(fs, i))
  {
    if fs != [] {
      OfNonNegative(fs[..|fs| - 1], i);
    }
  }

  lemma {:induction false} GrossOfInsert(f: Finding, sorted: seq<Finding>)
    ensures GrossOf(Insert(f, sorted), |sorted| + 1) == f.gross + GrossOf(sorted, |sorted|)
  {
    var r := Insert(f, sorted);
    if sorted == [] || Priority(f.action) <= Priority(sorted[0].action) {
      assert r[1..] == sorted;
    } else {
      assert r[1..] == Insert(f, sorted[1..]);
      GrossOfInsert(f, sorted[1..]);
    }
  }

  lemma {:induction false} GrossOfByPriority(fs: seq<Finding>)
    ensures GrossOf(ByPriority(fs), |fs|) == GrossOf(fs, |fs|)
  {
    if fs != [] {
      GrossOfByPriority(fs[1..]);
      GrossOfInsert(fs[0], ByPriority(fs[1..]));
    }
  }

  /** Everything found on an invoice. */
  function Gross(fs: seq<Finding>, i: nat): int { GrossOf(Of(fs, i), |Of(fs, i)|) }

  lemma InvoiceTotal(fs: seq<Finding>, i: nat, amount: real) returns (cap: nat)
    requires NonNegative(fs) && amount >= 0.0
    ensures TotalOf(Allocate(amount, ByPriority(Of(fs, i)))) == Min(cap, Gross(fs, i))
    ensures amount - 0.5 <= cap as real <= amount + 0.5
  {
    OfNonNegative(fs, i);
    ByPriorityNonNegative(Of(fs, i));
    GrossOfByPriority(Of(fs, i));
    cap := AnyTotal(amount, ByPriority(Of(fs, i)));
  }

  ghost predicate WholeCents(vs: seq<Invoice>, cents: seq<nat>) {
    |vs| == |cents| && forall i :: 0 <= i < |vs| ==> vs[i].amount == cents[i] as real
  }

  /** On a whole-cent invoice exactly its amount or everything found on it is recovered, whichever is less. */
  lemma WholeInvoice(fs: seq<Finding>, vs: seq<Invoice>, cents: seq<nat>, i: nat)
    requires NonNegative(fs) && WholeCents(vs, cents) && i < |vs|
    ensures Recovered(fs, vs)[i] == Min(cents[i], Gross(fs, i))
  {
    var cap := InvoiceTotal(fs, i, cents[i] as real);
    assert cap == cents[i];
  }

  lemma {:induction false} SumBelow(xs: seq<int>, ys: seq<nat>, n: nat)
    requires n <= |xs| == |ys| && forall i :: 0 <= i < |xs| ==> xs[i] <= ys[i]
    ensures SumTo(xs, n) <= SumTo(ys, n)
  {
    if n > 0 {
      SumBelow(xs, ys, n - 1);
    }
  }

  lemma {:induction false} WholeAmounts(vs: seq<Invoice>, cents: seq<nat>, n: nat)
    requires WholeCents(vs, cents) && n <= |vs|
    ensures AmountOf(vs, n) == SumTo(cents, n) as real
  {
    if n > 0 {
      WholeAmounts(vs, cents, n - 1);
    }
  }

  /** Whole-cent reports never recover more than was invoiced, so the final clamp changes nothing. */
  lemma ClampChangesNothing(fs: seq<Finding>, vs: seq<Invoice>, cents: seq<nat>)
    requires NonNegative(fs) && WholeCents(vs, cents)
    ensures SumTo(Recovered(fs, vs), |vs|) <= Round(AmountOf(vs, |vs|))
  {
    forall i | 0 <= i < |vs|
      ensures Recovered(fs, vs)[i] <= cents[i]
    {
      WholeInvoice(fs, vs, cents, i);
    }
    SumBelow(Recovered(fs, vs), cents, |vs|);
    WholeAmounts(vs, cents, |vs|);
    RoundWhole(SumTo(cents, |vs|));
  }

  lemma {:induction false} SumWithinHalves(xs: seq<int>, vs: seq<Invoice>, n: nat)
    requires n <= |xs| == |vs| && forall i :: 0 <= i < |xs| ==> xs[i] as real <= vs[i].amount + 0.5
    ensures SumTo(xs, n) as real <= AmountOf(vs, n) + n as real / 2.0
  {
    if n > 0 {
      SumWithinHalves(xs, vs, n - 1);
    }
  }

  /** For arbitrary amounts rounding adds at most half a cent for each invoice. */
  lemma ReportWithinHalfCents(fs: seq<Finding>, vs: seq<Invoice>)
    requires NonNegative(fs) && forall i :: 0 <= i < |vs| ==> vs[i].amount >= 0.0
    ensures SumTo(Recovered(fs, vs), |vs|) as real <= AmountOf(vs, |vs|) + |vs| as real / 2.0
  {
    forall i | 0 <= i < |vs|
      ensures Recovered(fs, vs)[i] as real <= vs[i].amount + 0.5
    {
      var cap := InvoiceTotal(fs, i, vs[i].amount);
    }
    SumWithinHalves(Recovered(fs, vs), vs, |vs|);
  }

  // ----- The analysis itself -----

  datatype Report = Report(recommendations: seq<Recommendation>, total: int, invoiced: int, estimate: int)

  lemma {:induction false} TotalAppend(a: seq<Recommendation>, b: seq<Recommendation>)
    ensures TotalOf(a + b) == TotalOf(a) + TotalOf(b)
  {
    if a == [] {
      assert a + b == b;
    } else {
      assert (a + b)[1..] == a[1..] + b;
      TotalAppend(a[1..], b);
    }
  }

  lemma {:induction false} SumSkips(xs: seq<int>, a: nat, b: nat)
    requires a <= b <= |xs| && forall i :: a <= i < b ==> xs[i] == 0
    ensures SumTo(xs, b) == SumTo(xs, a)
  {
    if a < b {
      SumSkips(xs, a, b - 1);
    }
  }

  /** One past the last group among the first `k`. */
  ghost function Bound(order: seq<nat>, k: nat): nat
    requires k <= |order|
  {
    if k == 0 then 0 else order[k - 1] + 1
  }

  /** Totals that are zero outside the served groups. */
  ghost predicate ZeroOutside(order: seq<nat>, totals: seq<int>) {
    && Rising(order) && (forall j :: 0 <= j < |order| ==> order[j] < |totals|)
    && (forall i :: 0 <= i < |totals| && i !in order ==> totals[i] == 0)
  }

  lemma NotBetween(order: seq<nat>, k: nat, i: nat)
    requires Rising(order) && k <= |order| && Bound(order, k) <= i && (k < |order| ==> i < order[k])
    ensures i !in order
  {
    forall j | 0 <= j < |order|
      ensures order[j] != i
    {
    }
  }

  lemma NextGroup(order: seq<nat>, totals: seq<int>, k: nat)
    requires ZeroOutside(order, totals) && k <= |order|
    ensures var upTo := if k < |order| then order[k] else |totals|;
            Bound(order, k) <= upTo <= |totals| && SumTo(totals, upTo) == SumTo(totals, Bound(order, k))
  {
    var upTo := if k < |order| then order[k] else |totals|;
    assert Bound(order, k) <= upTo;
    forall i | Bound(order, k) <= i < upTo
      ensures totals[i] == 0
    {
      NotBetween(order, k, i);
    }
    SumSkips(totals, Bound(order, k), upTo);
  }

  lemma GroupTotals(fs: seq<Finding>, vs: seq<Invoice>, order: seq<nat>, grouped: map<nat, seq<Finding>>,
        totals: seq<int>)
    requires Groups(fs, order, grouped) && totals == Recovered(fs, vs) && forall j :: 0 <= j < |fs| ==>
             fs[j].index < |vs|
    ensures ZeroOutside(order, totals) && |totals| == |vs|
    ensures Known(vs, order, grouped)
    ensures var gains := Gains(vs, order, grouped);
            |gains| == |order| && forall j :: 0 <= j < |order| ==> totals[order[j]] == TotalOf(gains[j])
  {
    forall j | 0 <= j < |order|
      ensures order[j] < |vs| && order[j] in grouped && grouped[order[j]] == Of(fs, order[j])
    {
      assert order[j] in order && order[j] <= order[|order| - 1];
      assert GroupAt(fs, grouped, order[j]);
    }
    forall i | 0 <= i < |totals| && i !in order
      ensures totals[i] == 0
    {
      assert GroupAt(fs, grouped, i);
      assert Of(fs, i) == [];
    }
  }

  lemma {:induction false} OfContains(fs: seq<Finding>, k: nat)
    requires k < |fs|
    ensures fs[k] in Of(fs, fs[k].index)
  {
    if k < |fs| - 1 {
      OfContains(fs[..|fs| - 1], k);
    }
  }

  lemma ServedIsNonNegative(fs: seq<Finding>, order: seq<nat>, grouped: map<nat, seq<Finding>>)
    requires Groups(fs, order, grouped)
    requires forall j :: 0 <= j < |order| ==> order[j] in grouped && NonNegative(grouped[order[j]])
    ensures NonNegative(fs)
  {
    forall k | 0 <= k < |fs|
      ensures fs[k].gross >= 0
    {
      var i := fs[k].index;
      OfContains(fs, k);
      assert GroupAt(fs, grouped, i);
      assert i in order;
      var j :| 0 <= j < |order| && order[j] == i;
    }
  }

  ghost predicate Known(vs: seq<Invoice>, order: seq<nat>, grouped: map<nat, seq<Finding>>) {
    forall j :: 0 <= j < |order| ==> order[j] < |vs| && order[j] in grouped
  }

  /** What each group is given, by priority. */
  function Gains(vs: seq<Invoice>, order: seq<nat>, grouped: map<nat, seq<Finding>>): seq<seq<Recommendation>>
    requires Known(vs, order, grouped)
  {
    seq(|order|, j requires 0 <= j < |order| => Allocate(vs[order[j]].amount, ByPriority(grouped[order[j]])))
  }

  function Concat(gains: seq<seq<Recommendation>>, k: nat): seq<Recommendation>
    requires k <= |gains|
  {
    if k == 0 then [] else Concat(gains, k - 1) + gains[k - 1]
  }

  /** Serving up to a group has recovered everything up to its invoice. */
  lemma {:induction false} ServedTotal(gains: seq<seq<Recommendation>>, order: seq<nat>, totals: seq<int>, k: nat)
    requires k <= |order| == |gains| && ZeroOutside(order, totals)
    requires forall j :: 0 <= j < |order| ==> totals[order[j]] == TotalOf(gains[j])
    ensures Bound(order, k) <= |totals| && TotalOf(Concat(gains, k)) == SumTo(totals, Bound(order, k))
  {
    if k > 0 {
      ServedTotal(gains, order, totals, k - 1);
      ServedNext(Concat(gains, k - 1), gains[k - 1], order, totals, k - 1);
    }
  }

  lemma ServedNext(before: seq<Recommendation>, mine: seq<Recommendation>, order: seq<nat>, totals: seq<int>, k: nat)
    requires ZeroOutside(order, totals) && k < |order| && Bound(order, k) <= |totals|
    requires TotalOf(before) == SumTo(totals, Bound(order, k)) && TotalOf(mine) == totals[order[k]]
    ensures TotalOf(before + mine) == SumTo(totals, Bound(order, k + 1))
  {
    TotalAppend(before, mine);
    NextGroup(order, totals, k);
  }

  lemma ServedAll(gains: seq<seq<Recommendation>>, order: seq<nat>, totals: seq<int>)
    requires |order| == |gains| && ZeroOutside(order, totals)
    requires forall j :: 0 <= j < |order| ==> totals[order[j]] == TotalOf(gains[j])
    ensures TotalOf(Concat(gains, |gains|)) == SumTo(totals, |totals|)
  {
    ServedTotal(gains, order, totals, |order|);
    NextGroup(order, totals, |order|);
  }

  /** What is given on each invoice: its findings are served by priority. */
  function Shares(fs: seq<Finding>, vs: seq<Invoice>): seq<seq<Recommendation>> {
    seq(|vs|, i requires 0 <= i < |vs| => Allocate(vs[i].amount, ByPriority(Of(fs, i))))
  }

  /** Nothing is given where there is no group. */
  ghost predicate EmptyOutside(order: seq<nat>, shares: seq<seq<Recommendation>>) {
    && Rising(order) && (forall j :: 0 <= j < |order| ==> order[j] < |shares|)
    && (forall i :: 0 <= i < |shares| && i !in order ==> shares[i] == [])
  }

  lemma {:induction false} ConcatSkips(shares: seq<seq<Recommendation>>, a: nat, b: nat)
    requires a <= b <= |shares| && forall i :: a <= i < b ==> shares[i] == []
    ensures Concat(shares, b) == Concat(shares, a)
    decreases b
  {
    if a < b {
      ConcatSkips(shares, a, b - 1);
      assert Concat(shares, b - 1) + [] == Concat(shares, b - 1);
    }
  }

  /** Between a group and the next there is none. */
  lemma NoneBetween(order: seq<nat>, k: nat, upTo: nat)
    requires Rising(order) && k <= |order| && (k < |order| ==> upTo == order[k])
    ensures forall i: nat :: Bound(order, k) <= i < upTo ==> i !in order
    ensures k < |order| ==> Bound(order, k) <= upTo
  {
    forall i: nat | Bound(order, k) <= i < upTo
      ensures i !in order
    {
      NotBetween(order, k, i);
    }
  }

  lemma SkipTo(order: seq<nat>, shares: seq<seq<Recommendation>>, a: nat, b: nat)
    requires EmptyOutside(order, shares) && a <= b <= |shares| && forall i: nat :: a <= i < b ==> i !in order
    ensures Concat(shares, b) == Concat(shares, a)
  {
    ConcatSkips(shares, a, b);
  }

  lemma ShareIsNext(order: seq<nat>, shares: seq<seq<Recommendation>>, i: nat, a: nat, before: seq<Recommendation>)
    requires EmptyOutside(order, shares) && a <= i < |shares| && before == Concat(shares, a)
    requires forall j: nat :: a <= j < i ==> j !in order
    ensures before + shares[i] == Concat(shares, i + 1)
  {
    SkipTo(order, shares, a, i);
  }

  /** The groups in order are the invoices in order. */
  lemma {:induction false} GroupsAreShares(order: seq<nat>, gains: seq<seq<Recommendation>>,
                                           shares: seq<seq<Recommendation>>, k: nat)
    requires EmptyOutside(order, shares) && k <= |order| == |gains|
    requires forall j :: 0 <= j < |order| ==> gains[j] == shares[order[j]]
    ensures Bound(order, k) <= |shares| && Concat(gains, k) == Concat(shares, Bound(order, k))
    decreases k
  {
    if k > 0 {
      GroupsAreShares(order, gains, shares, k - 1);
      NoneBetween(order, k - 1, order[k - 1]);
      ShareIsNext(order, shares, order[k - 1], Bound(order, k - 1), Concat(gains, k - 1));
    }
  }

  lemma GainIsShare(fs: seq<Finding>, vs: seq<Invoice>, order: seq<nat>, grouped: map<nat, seq<Finding>>, j: nat)
    requires Groups(fs, order, grouped) && Known(vs, order, grouped) && j < |order|
    ensures Gains(vs, order, grouped)[j] == Shares(fs, vs)[order[j]]
  {
    assert GroupAt(fs, grouped, order[j]);
  }

  lemma SharesOutside(fs: seq<Finding>, vs: seq<Invoice>, order: seq<nat>, grouped: map<nat, seq<Finding>>)
    requires Groups(fs, order, grouped) && Known(vs, order, grouped)
    ensures EmptyOutside(order, Shares(fs, vs))
  {
    forall i | 0 <= i < |vs| && i !in order
      ensures Shares(fs, vs)[i] == []
    {
      assert GroupAt(fs, grouped, i);
    }
  }

  lemma AllAreServed(fs: seq<Finding>, vs: seq<Invoice>, order: seq<nat>, grouped: map<nat, seq<Finding>>)
    requires Groups(fs, order, grouped) && Known(vs, order, grouped)
    ensures Concat(Gains(vs, order, grouped), |order|) == Concat(Shares(fs, vs), |vs|)
  {
    SharesOutside(fs, vs, order, grouped);
    forall j | 0 <= j < |order|
      ensures Gains(vs, order, grouped)[j] == Shares(fs, vs)[order[j]]
    {
      GainIsShare(fs, vs, order, grouped, j);
    }
    SharesInOrder(order, Gains(vs, order, grouped), Shares(fs, vs));
  }

  lemma SharesInOrder(order: seq<nat>, gains: seq<seq<Recommendation>>, shares: seq<seq<Recommendation>>)
    requires EmptyOutside(order, shares) && |order| == |gains|
    requires forall j :: 0 <= j < |order| ==> gains[j] == shares[order[j]]
    ensures Concat(gains, |gains|) == Concat(shares, |shares|)
  {
    GroupsAreShares(order, gains, shares, |order|);
    NoneBetween(order, |order|, |shares|);
    SkipTo(order, shares, Bound(order, |order|), |shares|);
  }

  method ServeGroup(vs: seq<Invoice>, order: seq<nat>, grouped: map<nat, seq<Finding>>, k: nat,
        ghost gains: seq<seq<Recommendation>>)
    returns (r: Option<seq<Recommendation>>)
    requires Known(vs, order, grouped) && gains == Gains(vs, order, grouped) && k < |order|
    ensures r.Some? <==> NonNegative(grouped[order[k]])
    ensures r.Some? ==> r.value == gains[k]
  {
    ByPriorityNonNegative(grouped[order[k]]);
    var served := AllocateInvoice(vs[order[k]].amount, ByPriority(grouped[order[k]]));
    r := if served.Err? then None else Some(served.value);
  }

  /** The second loop of the analysis: every group in order, its findings by priority. */
  method Serve(vs: seq<Invoice>, order: seq<nat>, grouped: map<nat, seq<Finding>>,
        ghost gains: seq<seq<Recommendation>>)
    returns (r: Result<seq<Recommendation>, nat>)
    requires Known(vs, order, grouped) && gains == Gains(vs, order, grouped)
    ensures r.Ok? ==> r.value == Concat(gains, |gains|) && forall j :: 0 <= j < |order| ==>
            NonNegative(grouped[order[j]])
    ensures r.Err? ==> r.error in grouped && !NonNegative(grouped[r.error])
  {
    var out: seq<Recommendation>, k := [], 0;
    while k < |order|
      invariant 0 <= k <= |order| == |gains|
      invariant out == Concat(gains, k)
      invariant forall j :: 0 <= j < k ==> NonNegative(grouped[order[j]])
    {
      var served := ServeGroup(vs, order, grouped, k, gains);
      if served.None? {
        return Err(order[k]);
      }
      out := out + served.value;
      k := k + 1;
    }
    r := Ok(out);
  }

  /** A negative amount or quantity, or a negative price of an invoice whose prices are compared. */
  predicate HasBadNumber(v: Invoice) {
    || v.amount < 0.0 || v.quantity < 0.0
    || (v.quantity > 0.0 && match v.baseline case None => false case Some(base) => base < 0.0 || v.unitPrice < 0.0)
  }

  method CheckNumbers(vs: seq<Invoice>) returns (ok: bool)
    ensures ok <==> forall i :: 0 <= i < |vs| ==> vs[i].Valid()
    ensures ok <==> forall i :: 0 <= i < |vs| ==> !HasBadNumber(vs[i])
  {
    var i := 0;
    while i < |vs|
      invariant 0 <= i <= |vs|
      invariant forall j :: 0 <= j < i ==> vs[j].Valid() && !HasBadNumber(vs[j])
    {
      if !vs[i].Valid() {
        return false;
      }
      i := i + 1;
    }
    ok := true;
  }

  /** Findings, groups, allocations and the clamped total. */
  method Analyze(p: Policy, vs: seq<Invoice>) returns (r: Result<Report, AnalysisError>, ghost fs: seq<Finding>)
    ensures fs == AllFindings(p, vs)
    ensures r == Err(BadNumber) <==> exists i :: 0 <= i < |vs| && HasBadNumber(vs[i])
    ensures r == Err(NegativeRecovery) <==>
            (forall i :: 0 <= i < |vs| ==> !HasBadNumber(vs[i])) && exists j :: 0 <= j < |fs| && fs[j].gross < 0
    ensures r.Ok? ==> r.value.recommendations == Concat(Shares(fs, vs), |vs|)
    ensures forall cents :: r.Ok? && WholeCents(vs, cents) ==> r.value.estimate == r.value.total
    ensures r.Ok? ==>
              && TotalOf(r.value.recommendations) == r.value.total == SumTo(Recovered(fs, vs), |vs|)
              && IsRounded(r.value.invoiced, AmountOf(vs, |vs|))
              && IsLesser(r.value.estimate, r.value.total, r.value.invoiced)
  {
    fs := AllFindings(p, vs);
    var ok := CheckNumbers(vs);
    if !ok {
      return Err(BadNumber), fs;
    }
    var found := Detect(p, vs);
    AllInOrder(p, vs);
    var order, grouped := Group(found);
    ghost var totals := Recovered(fs, vs);
    GroupTotals(fs, vs, order, grouped, totals);
    ghost var gains := Gains(vs, order, grouped);
    var served := Serve(vs, order, grouped, gains);
    if served.Err? {
      assert GroupAt(fs, grouped, served.error);
      if NonNegative(fs) {
        OfNonNegative(fs, served.error);
      }
      return Err(NegativeRecovery), fs;
    }
    ServedIsNonNegative(fs, order, grouped);
    ServedAll(gains, order, totals);
    AllAreServed(fs, vs, order, grouped);
    RoundIsNearest(AmountOf(vs, |vs|), Round(AmountOf(vs, |vs|)));
    var total := TotalOf(served.value);
    var invoiced := Round(AmountOf(vs, |vs|));
    forall cents | WholeCents(vs, cents)
      ensures total <= invoiced
    {
      ClampChangesNothing(fs, vs, cents);
    }
    r := Ok(Report(served.value, total, invoiced, Min(total, invoiced)));
  }

  const FLAG_ALL := Policy(1000.0, true, {}, 0.0, 1.0, 1.0, 1.0, (s: string) => s)

  const SMALL := Invoice("a", "1", 0.6, None, 0.0, 0.0)

  lemma FoundOnSmall(earlier: seq<Invoice>)
    ensures FindingsAfter(FLAG_ALL, earlier, SMALL) == [Finding(|earlier|, SMALL, UnapprovedVendor, 1)]
  {
    assert Strip("a") == "a" && Strip("1") == "1";
    assert IdFinding(FLAG_ALL, SMALL, |earlier|, SignatureOf(FLAG_ALL, SMALL) in Signatures(FLAG_ALL, earlier)) == [];
    assert VendorFinding(FLAG_ALL, SMALL, |earlier|) == [Finding(|earlier|, SMALL, UnapprovedVendor, 1)];
  }

  lemma RecoveredOnSmall(f: Finding)
    requires f.action == UnapprovedVendor && f.gross == 1
    ensures TotalOf(Allocate(0.6, ByPriority([f]))) == 1
  {
    assert [f][1..] == [] && ByPriority([]) == [] && ByPriority([f]) == [f];
    assert Allocated(f, 0.6) == 1;
    assert Allocate(0.6, [f]) == [Recommendation(UnapprovedVendor, 1, 1, 0)];
    assert [Recommendation(UnapprovedVendor, 1, 1, 0)][1..] == [];
  }

  lemma FoundOnBoth(f: Finding, g: Finding)
    requires f == Finding(0, SMALL, UnapprovedVendor, 1) && g == Finding(1, SMALL, UnapprovedVendor, 1)
    ensures AllFindings(FLAG_ALL, [SMALL, SMALL]) == [f, g]
  {
    assert [SMALL, SMALL][..1] == [SMALL] && [SMALL][..0] == [];
    FoundOnSmall([]);
    FoundOnSmall([SMALL]);
    assert AllFindings(FLAG_ALL, [SMALL]) == [] + [f];
  }

  lemma RecoveredOnBoth(f: Finding, g: Finding)
    requires f == Finding(0, SMALL, UnapprovedVendor, 1) && g == Finding(1, SMALL, UnapprovedVendor, 1)
    ensures Recovered([f, g], [SMALL, SMALL]) == [1, 1]
  {
    OfSnoc([], f, 0);
    OfSnoc([], f, 1);
    OfSnoc([f], g, 0);
    OfSnoc([f], g, 1);
    assert [] + [f] == [f] && [f] + [g] == [f, g];
    RecoveredOnSmall(f);
    RecoveredOnSmall(g);
  }

  /**
   With fractions of a cent the clamp can matter: two invoices of 0.6 cents are each found to recover
   one cent, while the invoiced total is one cent.
   */
  lemma FractionsNeedTheClamp()
    ensures var vs := [SMALL, SMALL];
            && (forall i :: 0 <= i < |vs| ==> vs[i].Valid())
            && SumTo(Recovered(AllFindings(FLAG_ALL, vs), vs), |vs|) == 2 && Round(AmountOf(vs, |vs|)) == 1
  {
    var vs := [SMALL, SMALL];
    var f, g := Finding(0, SMALL, UnapprovedVendor, 1), Finding(1, SMALL, UnapprovedVendor, 1);
    FoundOnBoth(f, g);
    RecoveredOnBoth(f, g);
    assert SumTo([1, 1], 1) == 1 && AmountOf(vs, 1) == 0.6;
  }
}
