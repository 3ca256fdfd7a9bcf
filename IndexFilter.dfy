/**
 * The logic of the admin review list's filter bar
 * (packages/assets/src/components/ProductReviews/IndexFilterPR/IndexFilterPR.js):
 * the tabs, the four pieces of filter state with their change, remove and
 * clear-all handlers, the `appliedFilters` list derived from that state, and
 * the `isEmpty` and `disambiguateLabel` helpers it uses.
 */
module IndexFilter {
  import opened Wrappers
  import opened Strings
  import opened JsValues

  // ---------------------------------------------------------------------------
  // tabs
  // ---------------------------------------------------------------------------

  /** A tab descriptor; its `onAction` callback does nothing and is not modelled. */
  datatype Tab = Tab(content: string, index: nat, id: string, isLocked: bool)

  /** The component's `itemStrings`: the three status tabs. */
  function ItemStrings(): seq<string> {
    ["All", "Published", "Unpublished"]
  }

  /** `itemStrings.map((item, index) => ...)`: one tab per label, id `<label>-<index>`, only the first locked. */
  function Tabs(items: seq<string>): (r: seq<Tab>)
    ensures |r| == |items|
    ensures forall i :: 0 <= i < |r| ==> r[i].content == items[i] && r[i].index == i
    ensures forall i :: 0 <= i < |r| ==> r[i].id == items[i] + "-" + NatToString(i)
    ensures forall i :: 0 <= i < |r| ==> (r[i].isLocked <==> i == 0)
  {
    seq(|items|, i requires 0 <= i < |items| => Tab(items[i], i, items[i] + "-" + NatToString(i), i == 0))
  }

  /** In `a-<digits>`, the dash sits just before the digits, and only digits follow it. */
  lemma DashBeforeDigits(a: string, d: string)
    requires forall i :: 0 <= i < |d| ==> IsDigit(d[i])
    ensures var x := a + "-" + d;
            && x[|x| - |d| - 1] == '-'
            && (forall k :: |x| - |d| <= k < |x| ==> IsDigit(x[k]))
            && x[|x| - |d|..] == d
  {
  }

  /** The digits after the last dash of `a-<digits>` are determined by the whole string. */
  lemma DashDigitsSuffix(a: string, d1: string, b: string, d2: string)
    requires forall i :: 0 <= i < |d1| ==> IsDigit(d1[i])
    requires forall i :: 0 <= i < |d2| ==> IsDigit(d2[i])
    requires a + "-" + d1 == b + "-" + d2
    ensures d1 == d2
  {
    DashBeforeDigits(a, d1);
    DashBeforeDigits(b, d2);
    var x := a + "-" + d1;
    assert |d1| == |d2| by {
      assert x[|x| - |d1| - 1] == '-' && x[|x| - |d2| - 1] == '-';
    }
  }

  /** Tab ids are unique, whatever the labels: the index after the last dash tells tabs apart. */
  lemma TabIdsUnique(items: seq<string>, i: nat, j: nat)
    requires i < |items| && j < |items|
    ensures Tabs(items)[i].id == Tabs(items)[j].id <==> i == j
  {
    var tabs := Tabs(items);
    if tabs[i].id == tabs[j].id {
      DashDigitsSuffix(items[i], NatToString(i), items[j], NatToString(j));
      NatToStringInjective(i, j);
    }
  }

  /** The component's tabs: `All-0` (locked), `Published-1` and `Unpublished-2`. */
  lemma ShippedTabs()
    ensures Tabs(ItemStrings()) == [Tab("All", 0, "All-0", true), Tab("Published", 1, "Published-1", false),
                                    Tab("Unpublished", 2, "Unpublished-2", false)]
  {
    var tabs, items := Tabs(ItemStrings()), ItemStrings();
    assert NatToString(0) == "0" && NatToString(1) == "1" && NatToString(2) == "2";
    assert items[0] + "-" + "0" == "All-0";
    assert items[1] + "-" + "1" == "Published-1";
    assert items[2] + "-" + "2" == "Unpublished-2";
    assert tabs[0] == Tab("All", 0, "All-0", true);
    assert tabs[1] == Tab("Published", 1, "Published-1", false);
    assert tabs[2] == Tab("Unpublished", 2, "Unpublished-2", false);
  }

  // ---------------------------------------------------------------------------
  // helpers
  // ---------------------------------------------------------------------------

  /** `isEmpty(value)`: an array without elements, or `''`, `null` or `undefined`. */
  function IsEmpty(v: JsValue): (r: bool)
    ensures v.Arr? ==> (r <==> |v.elems| == 0)
    ensures !v.Arr? ==> (r <==> v == Str("") || IsNullish(v))
  {
    if v.Arr? then |v.elems| == 0 else v == Str("") || v == Null || v == Undefined
  }

  /** Apart from arrays, an empty value is falsy; an empty array is the one value that is both empty and truthy. */
  lemma EmptyVersusTruthy(v: JsValue)
    ensures !v.Arr? && IsEmpty(v) ==> !Truthy(v)
    ensures v.Str? ==> (IsEmpty(v) <==> !Truthy(v))
    ensures v.Arr? ==> Truthy(v)
    ensures IsEmpty(v) && Truthy(v) <==> v == Arr([])
  {
  }

  /** The label `Customer <v>` of one account status value. */
  function CustomerLabels(es: seq<JsValue>): (r: seq<string>)
    ensures |r| == |es|
    ensures forall i :: 0 <= i < |es| ==> r[i] == "Customer " + ToString(es[i])
  {
    seq(|es|, i requires 0 <= i < |es| => "Customer " + ToString(es[i]))
  }

  /** The `moneySpent` case: `$` before the first and second elements; `value[0]` on `null` or `undefined` throws. */
  function MoneySpentLabelOf(value: JsValue): Result<JsValue> {
    if IsNullish(value) then Err("TypeError")
    else Ok(Str("Money spent is between $" + ToString(Index(value, 0)) + " and $" + ToString(Index(value, 1))))
  }

  /** The `accountStatus` case: `value.map` throws unless the value is an array. */
  function AccountStatusLabelOf(value: JsValue): Result<JsValue> {
    if value.Arr? then Ok(Str(Join(CustomerLabels(value.elems), ", "))) else Err("TypeError")
  }

  /** `disambiguateLabel(key, value)`; a thrown TypeError is the `Err` result. */
  function DisambiguateLabel(key: string, value: JsValue): Result<JsValue> {
    if key == "moneySpent" then MoneySpentLabelOf(value)
    else if key == "taggedWith" then Ok(Str("Tagged with " + ToString(value)))
    else if key == "accountStatus" then AccountStatusLabelOf(value)
    else Ok(value)
  }

  /** A two-element range gives `Money spent is between $a and $b`. */
  lemma MoneySpentLabel(a: JsValue, b: JsValue)
    ensures DisambiguateLabel("moneySpent", Arr([a, b]))
         == Ok(Str("Money spent is between $" + ToString(a) + " and $" + ToString(b)))
  {
  }

  /** `value[0]` and `value[1]` read the fields `"0"` and `"1"` of an object just as the elements of an array. */
  lemma MoneySpentObjectLabel(a: JsValue, b: JsValue)
    ensures DisambiguateLabel("moneySpent", Obj(map["0" := a, "1" := b]))
         == Ok(Str("Money spent is between $" + ToString(a) + " and $" + ToString(b)))
  {
    assert NatToString(0) == "0" && NatToString(1) == "1";
  }

  /** A tag gives `Tagged with <tag>`. */
  lemma TaggedWithLabel(tag: string)
    ensures DisambiguateLabel("taggedWith", Str(tag)) == Ok(Str("Tagged with " + tag))
  {
  }

  /**
   * The account status label lists `Customer <v>` for each value, separated by
   * `, `: nothing for no values, and each value's label in front of the rest's.
   */
  lemma AccountStatusLabel(v: JsValue, rest: seq<JsValue>)
    ensures DisambiguateLabel("accountStatus", Arr([])) == Ok(Str(""))
    ensures DisambiguateLabel("accountStatus", Arr([v])) == Ok(Str("Customer " + ToString(v)))
    ensures rest != [] ==>
              DisambiguateLabel("accountStatus", Arr([v] + rest))
              == Ok(Str("Customer " + ToString(v) + ", " + DisambiguateLabel("accountStatus", Arr(rest)).value.s))
  {
    if rest != [] {
      var labels := CustomerLabels([v] + rest);
      assert labels[1..] == CustomerLabels(rest);
    }
  }

  /** Any other key gives the value back unchanged. */
  lemma OtherKeyLabel(key: string, value: JsValue)
    requires key != "moneySpent" && key != "taggedWith" && key != "accountStatus"
    ensures DisambiguateLabel(key, value) == Ok(value)
  {
  }

  // ---------------------------------------------------------------------------
  // applied filters
  // ---------------------------------------------------------------------------

  /** The filter fields; an applied filter's `onRemove` is the remove handler of its field. */
  datatype Field = AccountStatus | MoneySpent | TaggedWith | QueryValue

  function KeyOf(f: Field): string {
    match f
    case AccountStatus => "accountStatus"
    case MoneySpent => "moneySpent"
    case TaggedWith => "taggedWith"
    case QueryValue => "queryValue"
  }

  /** The label of a field's entry, chosen by field rather than by key name. */
  function LabelFor(f: Field, value: JsValue): Result<JsValue> {
    match f
    case AccountStatus => AccountStatusLabelOf(value)
    case MoneySpent => MoneySpentLabelOf(value)
    case TaggedWith => Ok(Str("Tagged with " + ToString(value)))
    case QueryValue => Ok(value)
  }

  /** Dispatching on a field's key name picks that field's case. */
  lemma LabelForKey(f: Field, value: JsValue)
    ensures DisambiguateLabel(KeyOf(f), value) == LabelFor(f, value)
  {
  }

  datatype AppliedFilter = AppliedFilter(key: string, labelValue: JsValue, onRemove: Field)

  /** The condition under which the source pushes an entry for a field holding `v`. */
  predicate Applied(f: Field, v: JsValue) {
    match f
    case AccountStatus => Truthy(v) && !IsEmpty(v)
    case MoneySpent => Truthy(v)
    case TaggedWith => !IsEmpty(v)
    case QueryValue => false
  }

  /** The candidates whose condition holds, in order. */
  function AppliedCandidates(cands: seq<(Field, JsValue)>): seq<(Field, JsValue)> {
    if |cands| == 0 then []
    else (if Applied(cands[0].0, cands[0].1) then [cands[0]] else []) + AppliedCandidates(cands[1..])
  }

  /** Push an entry for each candidate whose condition holds, in order; the first label that throws aborts the list. */
  function Collect(cands: seq<(Field, JsValue)>, labelOf: (Field, JsValue) -> Result<JsValue>): Result<seq<AppliedFilter>> {
    if |cands| == 0 then Ok([])
    else
      var (f, v) := cands[0];
      if !Applied(f, v) then Collect(cands[1..], labelOf)
      else
        match labelOf(f, v)
        case Err(m) => Err(m)
        case Ok(l) =>
          match Collect(cands[1..], labelOf)
          case Err(m) => Err(m)
          case Ok(rest) => Ok([AppliedFilter(KeyOf(f), l, f)] + rest)
  }

  /** The candidates in the order the source tests them. */
  function Candidates(accountStatus: JsValue, moneySpent: JsValue, taggedWith: JsValue): seq<(Field, JsValue)> {
    [(AccountStatus, accountStatus), (MoneySpent, moneySpent), (TaggedWith, taggedWith)]
  }

  function AppliedFiltersOf(accountStatus: JsValue, moneySpent: JsValue, taggedWith: JsValue): Result<seq<AppliedFilter>> {
    Collect(Candidates(accountStatus, moneySpent, taggedWith), LabelFor)
  }

  /** The list holds one entry per applied candidate, in candidate order, keyed, labelled and removable by its field. */
  lemma {:induction false} CollectEntries(cands: seq<(Field, JsValue)>, labelOf: (Field, JsValue) -> Result<JsValue>)
    requires Collect(cands, labelOf).Ok?
    ensures var fs := Collect(cands, labelOf).value;
            var applied := AppliedCandidates(cands);
            && |fs| == |applied|
            && forall i :: 0 <= i < |fs| ==>
                 && fs[i].onRemove == applied[i].0
                 && fs[i].key == KeyOf(applied[i].0)
                 && labelOf(applied[i].0, applied[i].1) == Ok(fs[i].labelValue)
  {
    if |cands| > 0 {
      var (f, v) := cands[0];
      var tail := cands[1..];
      assert Collect(tail, labelOf).Ok?;
      CollectEntries(tail, labelOf);
      var fs := Collect(cands, labelOf).value;
      var rest := Collect(tail, labelOf).value;
      var applied := AppliedCandidates(cands);
      if Applied(f, v) {
        assert fs == [AppliedFilter(KeyOf(f), labelOf(f, v).value, f)] + rest;
        assert applied == [cands[0]] + AppliedCandidates(tail);
      } else {
        assert fs == rest && applied == AppliedCandidates(tail);
      }
    }
  }

  /** The whole list fails exactly when some applied field's label throws. */
  lemma {:induction false} CollectFails(cands: seq<(Field, JsValue)>, labelOf: (Field, JsValue) -> Result<JsValue>)
    ensures Collect(cands, labelOf).Err? <==>
            exists i :: 0 <= i < |cands| && Applied(cands[i].0, cands[i].1) && labelOf(cands[i].0, cands[i].1).Err?
  {
    if |cands| > 0 {
      CollectFails(cands[1..], labelOf);
      var tail := cands[1..];
      assert forall i :: 0 <= i < |tail| ==> tail[i] == cands[i + 1];
    }
  }

  /** Position of a field in the order the source tests them. */
  function Rank(f: Field): nat {
    match f
    case AccountStatus => 0
    case MoneySpent => 1
    case TaggedWith => 2
    case QueryValue => 3
  }

  predicate RankIncreasing(cands: seq<(Field, JsValue)>) {
    forall i, j :: 0 <= i < j < |cands| ==> Rank(cands[i].0) < Rank(cands[j].0)
  }

  /** A field has an entry exactly when some candidate for it is applied. */
  lemma {:induction false} CollectPresence(cands: seq<(Field, JsValue)>, f: Field, labelOf: (Field, JsValue) -> Result<JsValue>)
    requires Collect(cands, labelOf).Ok?
    ensures var fs := Collect(cands, labelOf).value;
            (exists i :: 0 <= i < |fs| && fs[i].onRemove == f) <==>
            (exists j :: 0 <= j < |cands| && cands[j].0 == f && Applied(f, cands[j].1))
  {
    if |cands| > 0 {
      var tail := cands[1..];
      CollectPresence(tail, f, labelOf);
      var fs := Collect(cands, labelOf).value;
      var rest := Collect(tail, labelOf).value;
      var head := Applied(cands[0].0, cands[0].1);
      assert head ==> fs == [fs[0]] + rest && fs[0].onRemove == cands[0].0;
      assert !head ==> fs == rest;
      if i :| 0 <= i < |fs| && fs[i].onRemove == f {
        if !(head && i == 0) {
          var k := if head then i - 1 else i;
          assert rest[k].onRemove == f;
          var j :| 0 <= j < |tail| && tail[j].0 == f && Applied(f, tail[j].1);
          assert cands[j + 1] == tail[j];
        }
      }
      if j :| 0 <= j < |cands| && cands[j].0 == f && Applied(f, cands[j].1) {
        if !(head && j == 0) && j > 0 {
          assert tail[j - 1] == cands[j];
          var k :| 0 <= k < |rest| && rest[k].onRemove == f;
          assert fs[if head then k + 1 else k] == rest[k];
        }
      }
    }
  }

  /** Each entry is keyed by its field's name. */
  lemma {:induction false} CollectKeys(cands: seq<(Field, JsValue)>, labelOf: (Field, JsValue) -> Result<JsValue>)
    requires Collect(cands, labelOf).Ok?
    ensures var fs := Collect(cands, labelOf).value;
            forall i :: 0 <= i < |fs| ==> fs[i].key == KeyOf(fs[i].onRemove)
  {
    if |cands| > 0 {
      CollectKeys(cands[1..], labelOf);
    }
  }

  /** Entries come in the candidates' order. */
  lemma {:induction false} CollectOrder(cands: seq<(Field, JsValue)>, labelOf: (Field, JsValue) -> Result<JsValue>)
    requires Collect(cands, labelOf).Ok?
    requires RankIncreasing(cands)
    ensures var fs := Collect(cands, labelOf).value;
            forall i, j :: 0 <= i < j < |fs| ==> Rank(fs[i].onRemove) < Rank(fs[j].onRemove)
  {
    if |cands| > 0 {
      var tail := cands[1..];
      assert RankIncreasing(tail) by {
        forall i, j | 0 <= i < j < |tail| ensures Rank(tail[i].0) < Rank(tail[j].0) {
          assert tail[i] == cands[i + 1] && tail[j] == cands[j + 1];
        }
      }
      CollectOrder(tail, labelOf);
      var fs := Collect(cands, labelOf).value;
      var rest := Collect(tail, labelOf).value;
      if Applied(cands[0].0, cands[0].1) {
        assert fs == [fs[0]] + rest;
        forall k | 0 <= k < |rest| ensures Rank(cands[0].0) < Rank(rest[k].onRemove) {
          CollectPresence(tail, rest[k].onRemove, labelOf);
          var j :| 0 <= j < |tail| && tail[j].0 == rest[k].onRemove && Applied(rest[k].onRemove, tail[j].1);
          assert tail[j] == cands[j + 1];
        }
      }
    }
  }

  /**
   * The `appliedFilters` derivation has an account status entry exactly when
   * the value is truthy and not empty, a money spent entry exactly when it is
   * truthy and a tagged-with entry exactly when it is not empty.
   */
  lemma AppliedFiltersPresence(accountStatus: JsValue, moneySpent: JsValue, taggedWith: JsValue)
    requires AppliedFiltersOf(accountStatus, moneySpent, taggedWith).Ok?
    ensures var fs := AppliedFiltersOf(accountStatus, moneySpent, taggedWith).value;
            && ((exists i :: 0 <= i < |fs| && fs[i].onRemove == AccountStatus) <==> Truthy(accountStatus) && !IsEmpty(accountStatus))
            && ((exists i :: 0 <= i < |fs| && fs[i].onRemove == MoneySpent) <==> Truthy(moneySpent))
            && ((exists i :: 0 <= i < |fs| && fs[i].onRemove == TaggedWith) <==> !IsEmpty(taggedWith))
  {
    var cands := Candidates(accountStatus, moneySpent, taggedWith);
    CollectPresence(cands, AccountStatus, LabelFor);
    CandidateApplied(cands, 0);
    CollectPresence(cands, MoneySpent, LabelFor);
    CandidateApplied(cands, 1);
    CollectPresence(cands, TaggedWith, LabelFor);
    CandidateApplied(cands, 2);
  }

  /** In candidates of distinct fields, some candidate for the `k`-th field is applied exactly when the `k`-th is. */
  lemma CandidateApplied(cands: seq<(Field, JsValue)>, k: nat)
    requires k < |cands|
    requires forall i, j :: 0 <= i < j < |cands| ==> cands[i].0 != cands[j].0
    ensures (exists j :: 0 <= j < |cands| && cands[j].0 == cands[k].0 && Applied(cands[k].0, cands[j].1))
            <==> Applied(cands[k].0, cands[k].1)
  {
    if j :| 0 <= j < |cands| && cands[j].0 == cands[k].0 && Applied(cands[k].0, cands[j].1) {
      assert j == k;
    }
  }

  /** Its entries are keyed by their field and come in the order account status, money spent, tagged with. */
  lemma AppliedFiltersOrder(accountStatus: JsValue, moneySpent: JsValue, taggedWith: JsValue)
    requires AppliedFiltersOf(accountStatus, moneySpent, taggedWith).Ok?
    ensures var fs := AppliedFiltersOf(accountStatus, moneySpent, taggedWith).value;
            && (forall i, j :: 0 <= i < j < |fs| ==> Rank(fs[i].onRemove) < Rank(fs[j].onRemove))
            && (forall i :: 0 <= i < |fs| ==> fs[i].key == KeyOf(fs[i].onRemove))
  {
    var cands := Candidates(accountStatus, moneySpent, taggedWith);
    assert RankIncreasing(cands);
    CollectOrder(cands, LabelFor);
    CollectKeys(cands, LabelFor);
  }

  /** Only an account status that is truthy, non-empty and not an array makes the derivation throw. */
  lemma AppliedFiltersThrow(accountStatus: JsValue, moneySpent: JsValue, taggedWith: JsValue)
    ensures AppliedFiltersOf(accountStatus, moneySpent, taggedWith).Err?
        <==> Truthy(accountStatus) && !IsEmpty(accountStatus) && !accountStatus.Arr?
  {
    var cands := Candidates(accountStatus, moneySpent, taggedWith);
    CollectFails(cands, LabelFor);
    if Truthy(accountStatus) && !IsEmpty(accountStatus) && !accountStatus.Arr? {
      assert Applied(cands[0].0, cands[0].1) && LabelFor(cands[0].0, cands[0].1).Err?;
    }
  }

  /** `fs` in front of a list that was built, an error unchanged. */
  function Prepend(fs: seq<AppliedFilter>, r: Result<seq<AppliedFilter>>): Result<seq<AppliedFilter>> {
    match r
    case Err(m) => Err(m)
    case Ok(rest) => Ok(fs + rest)
  }

  lemma PrependEmpty(r: Result<seq<AppliedFilter>>)
    ensures Prepend([], r) == r
  {
    if r.Ok? {
      assert [] + r.value == r.value;
    }
  }

  /** One step of the derivation: test the first candidate, push its entry or stop at its error. */
  lemma CollectStep(fs: seq<AppliedFilter>, cands: seq<(Field, JsValue)>, labelOf: (Field, JsValue) -> Result<JsValue>)
    requires |cands| > 0
    ensures var (f, v) := cands[0];
            Prepend(fs, Collect(cands, labelOf))
            == if !Applied(f, v) then Prepend(fs, Collect(cands[1..], labelOf))
               else if labelOf(f, v).Err? then Err(labelOf(f, v).message)
               else Prepend(fs + [AppliedFilter(KeyOf(f), labelOf(f, v).value, f)], Collect(cands[1..], labelOf))
  {
    var (f, v) := cands[0];
    if Applied(f, v) && labelOf(f, v).Ok? && Collect(cands[1..], labelOf).Ok? {
      var e := AppliedFilter(KeyOf(f), labelOf(f, v).value, f);
      assert fs + ([e] + Collect(cands[1..], labelOf).value) == fs + [e] + Collect(cands[1..], labelOf).value;
    }
  }

  // ---------------------------------------------------------------------------
  // the component's filter state
  // ---------------------------------------------------------------------------

  /** The four `useState` cells of the filter bar. */
  class FilterState {
    var accountStatus: JsValue
    var moneySpent: JsValue
    var taggedWith: JsValue
    var queryValue: JsValue

    /** The initial state: no account status or money range, empty tag and query. */
    constructor()
      ensures accountStatus == Undefined && moneySpent == Undefined
      ensures taggedWith == Str("") && queryValue == Str("")
    {
      accountStatus := Undefined;
      moneySpent := Undefined;
      taggedWith := Str("");
      queryValue := Str("");
    }

    method AccountStatusChange(value: JsValue)
      modifies this
      ensures accountStatus == value
      ensures moneySpent == old(moneySpent) && taggedWith == old(taggedWith) && queryValue == old(queryValue)
    {
      accountStatus := value;
    }

    method MoneySpentChange(value: JsValue)
      modifies this
      ensures moneySpent == value
      ensures accountStatus == old(accountStatus) && taggedWith == old(taggedWith) && queryValue == old(queryValue)
    {
      moneySpent := value;
    }

    method TaggedWithChange(value: JsValue)
      modifies this
      ensures taggedWith == value
      ensures accountStatus == old(accountStatus) && moneySpent == old(moneySpent) && queryValue == old(queryValue)
    {
      taggedWith := value;
    }

    method QueryChange(value: JsValue)
      modifies this
      ensures queryValue == value
      ensures accountStatus == old(accountStatus) && moneySpent == old(moneySpent) && taggedWith == old(taggedWith)
    {
      queryValue := value;
    }

    method AccountStatusRemove()
      modifies this
      ensures accountStatus == Undefined
      ensures moneySpent == old(moneySpent) && taggedWith == old(taggedWith) && queryValue == old(queryValue)
    {
      accountStatus := Undefined;
    }

    method MoneySpentRemove()
      modifies this
      ensures moneySpent == Undefined
      ensures accountStatus == old(accountStatus) && taggedWith == old(taggedWith) && queryValue == old(queryValue)
    {
      moneySpent := Undefined;
    }

    method TaggedWithRemove()
      modifies this
      ensures taggedWith == Str("")
      ensures accountStatus == old(accountStatus) && moneySpent == old(moneySpent) && queryValue == old(queryValue)
    {
      taggedWith := Str("");
    }

    method QueryValueRemove()
      modifies this
      ensures queryValue == Str("")
      ensures accountStatus == old(accountStatus) && moneySpent == old(moneySpent) && taggedWith == old(taggedWith)
    {
      queryValue := Str("");
    }

    /** `handleFiltersClearAll`: the four remove handlers in turn; afterwards no filter is applied. */
    method ClearAll()
      modifies this
      ensures accountStatus == Undefined && moneySpent == Undefined
      ensures taggedWith == Str("") && queryValue == Str("")
      ensures AppliedFiltersOf(accountStatus, moneySpent, taggedWith) == Ok([])
    {
      AccountStatusRemove();
      MoneySpentRemove();
      TaggedWithRemove();
      QueryValueRemove();
    }

    /** The `appliedFilters` array, built by the source's three conditional pushes. */
    method AppliedFilters() returns (r: Result<seq<AppliedFilter>>)
      ensures r == AppliedFiltersOf(accountStatus, moneySpent, taggedWith)
    {
      ghost var cands := Candidates(accountStatus, moneySpent, taggedWith);
      var filters: seq<AppliedFilter> := [];
      PrependEmpty(Collect(cands, LabelFor));
      CollectStep(filters, cands, LabelFor);
      if Truthy(accountStatus) && !IsEmpty(accountStatus) {
        var key := "accountStatus";
        var l := DisambiguateLabel(key, accountStatus);
        LabelForKey(AccountStatus, accountStatus);
        if l.Err? {
          return Err(l.message);
        }
        filters := filters + [AppliedFilter(key, l.value, AccountStatus)];
      }
      assert cands[1..] == [(MoneySpent, moneySpent), (TaggedWith, taggedWith)];
      CollectStep(filters, cands[1..], LabelFor);
      if Truthy(moneySpent) {
        var key := "moneySpent";
        var l := DisambiguateLabel(key, moneySpent);
        LabelForKey(MoneySpent, moneySpent);
        filters := filters + [AppliedFilter(key, l.value, MoneySpent)];
      }
      assert cands[1..][1..] == [(TaggedWith, taggedWith)];
      CollectStep(filters, cands[1..][1..], LabelFor);
      if !IsEmpty(taggedWith) {
        var key := "taggedWith";
        var l := DisambiguateLabel(key, taggedWith);
        LabelForKey(TaggedWith, taggedWith);
        filters := filters + [AppliedFilter(key, l.value, TaggedWith)];
      }
      assert cands[1..][1..][1..] == [];
      assert filters + [] == filters;
      r := Ok(filters);
    }
  }
}
