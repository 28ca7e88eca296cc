/**
 * The browser client's own logic: the claim list it keeps under one
 * browser-storage key, the search over it, and the handling of a user
 * action coming from a rendered surface (decoding the action's context,
 * storing a submitted claim, returning to the top).
 */
module ClientApp {

  import opened Base
  import opened A2ui
  import opened Screens

  /** A stored claim: the form fields plus the id and creation time added when it is stored. */
  datatype ExpenseRecord = ExpenseRecord(id: string, createdAt: string, form: ExpenseForm)

  /** What the storage key holds: nothing (or an empty string), a parsed claim list, or text that does not parse. */
  datatype Slot = Absent | Stored(records: seq<ExpenseRecord>) | Unparseable

  /** `loadClaims`: an absent or unparseable entry reads as no claims. */
  function Loaded(slot: Slot): (claims: seq<ExpenseRecord>)
    ensures !slot.Stored? ==> claims == []
  {
    if slot.Stored? then slot.records else []
  }

  /** The eight fields the client searches, joined with spaces. */
  function SearchText(r: ExpenseRecord): string
  {
    Join(" ", FormValues(r.form))
  }

  /** The claims whose lowered search text contains the lowered query, in stored order. */
  function Filtered(claims: seq<ExpenseRecord>, lowered: string, toLower: string -> string): (r: seq<ExpenseRecord>)
    ensures |r| <= |claims|
    decreases |claims|
  {
    if claims == [] then []
    else if Contains(toLower(SearchText(claims[0])), lowered) then [claims[0]] + Filtered(claims[1..], lowered, toLower)
    else Filtered(claims[1..], lowered, toLower)
  }

  /** `searchClaims(query)` over the given claims. */
  function Search(claims: seq<ExpenseRecord>, query: string, toLower: string -> string): seq<ExpenseRecord>
  {
    if query == "" then claims else Filtered(claims, toLower(query), toLower)
  }

  /** A claim is kept exactly when it is stored and its search text contains the query. */
  lemma {:induction false} FilteredMembers(claims: seq<ExpenseRecord>, lowered: string, toLower: string -> string,
                                           c: ExpenseRecord)
    ensures c in Filtered(claims, lowered, toLower) <==> c in claims && Contains(toLower(SearchText(c)), lowered)
    decreases |claims|
  {
    if claims != [] {
      FilteredMembers(claims[1..], lowered, toLower, c);
      assert claims == [claims[0]] + claims[1..];
    }
  }

  /** The search returns only stored claims. */
  lemma SearchSubset(claims: seq<ExpenseRecord>, query: string, toLower: string -> string)
    ensures forall c :: c in Search(claims, query, toLower) ==> c in claims
  {
    if query != "" {
      forall c | c in Filtered(claims, toLower(query), toLower) ensures c in claims {
        FilteredMembers(claims, toLower(query), toLower, c);
      }
    }
  }

  /** The kept claims are in stored order. */
  lemma {:induction false} FilteredOrdered(claims: seq<ExpenseRecord>, lowered: string, toLower: string -> string)
    ensures Subsequence(Filtered(claims, lowered, toLower), claims)
    decreases |claims|
  {
    if claims != [] {
      FilteredOrdered(claims[1..], lowered, toLower);
      var r := Filtered(claims, lowered, toLower);
      if Contains(toLower(SearchText(claims[0])), lowered) {
        assert r[1..] == Filtered(claims[1..], lowered, toLower);
      }
    }
  }

  // ---------------------------------------------------------------------
  // Action contexts
  // ---------------------------------------------------------------------

  /** A bound value as it arrives in an action's context; an absent member is `None`. */
  datatype ValueSpec = ValueSpec(
    literalBoolean: Option<bool>, literalNumber: Option<string>, literalString: Option<string>,
    path: Option<string>)

  /** One context entry; `value` is `None` when the entry has no value object. */
  datatype ContextItem = ContextItem(key: string, value: Option<ValueSpec>)

  /** A user action from a surface; an action without context has an empty one. */
  datatype UserAction = UserAction(name: string, context: seq<ContextItem>)

  /**
   * A decoded context value. A number keeps the text JavaScript renders it
   * with; `DataValue(None)` is a path that resolves to null or undefined.
   */
  datatype CtxValue = BoolValue(b: bool) | NumberValue(text: string) | StringValue(s: string) | DataValue(v: Option<string>)

  /**
   * The value an entry contributes: the first of `literalBoolean`,
   * `literalNumber`, `literalString` that is present, else the data at a
   * non-empty `path`, else nothing.
   */
  function ItemValue(v: Option<ValueSpec>, resolve: string -> Option<string>): (r: Option<CtxValue>)
    ensures v.Some? && v.value.literalBoolean.Some? ==> r == Some(BoolValue(v.value.literalBoolean.value))
    ensures v.Some? && v.value.literalBoolean.None? && v.value.literalNumber.Some? ==>
      r == Some(NumberValue(v.value.literalNumber.value))
    ensures v.Some? && v.value.literalBoolean.None? && v.value.literalNumber.None? && v.value.literalString.Some? ==>
      r == Some(StringValue(v.value.literalString.value))
    ensures v.Some? && v.value.literalBoolean.None? && v.value.literalNumber.None? && v.value.literalString.None?
            && v.value.path.Some? && v.value.path.value != "" ==>
      r == Some(DataValue(resolve(v.value.path.value)))
    ensures r.None? <==>
      v.None? || (v.value.literalBoolean.None? && v.value.literalNumber.None? && v.value.literalString.None?
                  && (v.value.path.None? || v.value.path.value == ""))
  {
    if v.None? then None
    else if v.value.literalBoolean.Some? then Some(BoolValue(v.value.literalBoolean.value))
    else if v.value.literalNumber.Some? then Some(NumberValue(v.value.literalNumber.value))
    else if v.value.literalString.Some? then Some(StringValue(v.value.literalString.value))
    else if v.value.path.Some? && v.value.path.value != "" then Some(DataValue(resolve(v.value.path.value)))
    else None
  }

  /** The context record after the given entries, processed in order. */
  function Decoded(items: seq<ContextItem>, resolve: string -> Option<string>): map<string, CtxValue>
    decreases |items|
  {
    if items == [] then map[]
    else
      var ctx := Decoded(items[..|items| - 1], resolve);
      var last := items[|items| - 1];
      match ItemValue(last.value, resolve)
      case Some(x) => ctx[last.key := x]
      case None => ctx
  }

  /**
   * A key holds the value of its last entry that contributes one, and keys
   * without such an entry are absent.
   */
  lemma {:induction false} DecodedLastWins(items: seq<ContextItem>, resolve: string -> Option<string>, i: nat)
    requires i < |items| && ItemValue(items[i].value, resolve).Some?
    requires forall j :: i < j < |items| && items[j].key == items[i].key ==> ItemValue(items[j].value, resolve).None?
    ensures items[i].key in Decoded(items, resolve)
    ensures Decoded(items, resolve)[items[i].key] == ItemValue(items[i].value, resolve).value
    decreases |items|
  {
    if i < |items| - 1 {
      var init := items[..|items| - 1];
      assert init[i] == items[i];
      DecodedLastWins(init, resolve, i);
    }
  }

  lemma {:induction false} DecodedKeys(items: seq<ContextItem>, resolve: string -> Option<string>, k: string)
    requires forall j :: 0 <= j < |items| && items[j].key == k ==> ItemValue(items[j].value, resolve).None?
    ensures k !in Decoded(items, resolve)
    decreases |items|
  {
    if items != [] {
      DecodedKeys(items[..|items| - 1], resolve, k);
    }
  }

  /** The loop of `handleA2uiAction` that fills the context record. */
  method DecodeContext(items: seq<ContextItem>, resolve: string -> Option<string>) returns (ctx: map<string, CtxValue>)
    ensures ctx == Decoded(items, resolve)
  {
    ctx := map[];
    for i := 0 to |items|
      invariant ctx == Decoded(items[..i], resolve)
    {
      assert items[..i + 1][..i] == items[..i];
      var item := items[i];
      if item.value.Some? && item.value.value.literalBoolean.Some? {
        ctx := ctx[item.key := BoolValue(item.value.value.literalBoolean.value)];
      } else if item.value.Some? && item.value.value.literalNumber.Some? {
        ctx := ctx[item.key := NumberValue(item.value.value.literalNumber.value)];
      } else if item.value.Some? && item.value.value.literalString.Some? {
        ctx := ctx[item.key := StringValue(item.value.value.literalString.value)];
      } else if item.value.Some? && item.value.value.path.Some? && item.value.value.path.value != "" {
        ctx := ctx[item.key := DataValue(resolve(item.value.value.path.value))];
      }
    }
    assert items[..|items|] == items;
  }

  // ---------------------------------------------------------------------
  // Submit payload
  // ---------------------------------------------------------------------

  /** `String(v)` of a context value that is not null or undefined. */
  function Render(v: CtxValue): string
    requires !(v.DataValue? && v.v.None?)
  {
    match v
    case BoolValue(b) => if b then "true" else "false"
    case NumberValue(t) => t
    case StringValue(s) => s
    case DataValue(d) => d.value
  }

  /** `String(context[key] ?? default)`. */
  function Field(ctx: map<string, CtxValue>, key: string, default: string): (s: string)
    ensures key !in ctx ==> s == default
    ensures key in ctx && ctx[key] == DataValue(None) ==> s == default
    ensures key in ctx && ctx[key].StringValue? ==> s == ctx[key].s
    ensures key in ctx && ctx[key].DataValue? && ctx[key].v.Some? ==> s == ctx[key].v.value
    ensures key in ctx && ctx[key].BoolValue? ==> s == (if ctx[key].b then "true" else "false")
    ensures key in ctx && ctx[key].NumberValue? ==> s == ctx[key].text
  {
    if key in ctx && !(ctx[key].DataValue? && ctx[key].v.None?) then Render(ctx[key]) else default
  }

  /** The submitted form: every field defaults to `""` except the currency, which defaults to `"JPY"`. */
  function PayloadOf(ctx: map<string, CtxValue>): (f: ExpenseForm)
    ensures "currency" !in ctx ==> f.currency == "JPY"
    ensures "amount" !in ctx ==> f.amount == ""
    ensures forall i :: 0 <= i < |FormKeys| && i != 4 ==> FormValues(f)[i] == Field(ctx, FormKeys[i], "")
    ensures f.currency == Field(ctx, "currency", "JPY")
  {
    var f := ExpenseForm(
      Field(ctx, "receiptName", ""), Field(ctx, "merchant", ""), Field(ctx, "date", ""),
      Field(ctx, "amount", ""), Field(ctx, "currency", "JPY"), Field(ctx, "category", ""),
      Field(ctx, "paymentMethod", ""), Field(ctx, "memo", ""));
    assert FormValues(f) == [f.receiptName, f.merchant, f.date, f.amount, f.currency, f.category,
                             f.paymentMethod, f.memo];
    f
  }

  // ---------------------------------------------------------------------
  // The client state
  // ---------------------------------------------------------------------

  /** What the client keeps: the storage entry, the messages of the shown surfaces, the ids handed out. */
  datatype AppState = AppState(slot: Slot, rendered: seq<Message>, issued: nat)

  /** `addClaim(payload)` on a state: returns the new record and the state that stores it last. */
  function WithClaim(s: AppState, payload: ExpenseForm, now: string): (r: (ExpenseRecord, AppState))
  {
    var record := ExpenseRecord(IdFor(s.issued), now, payload);
    (record, s.(slot := Stored(Loaded(s.slot) + [record]), issued := s.issued + 1))
  }

  /** The state after `handleA2uiAction` for an event carrying `action` (or none). */
  function Handle(s: AppState, action: Option<UserAction>, resolve: string -> Option<string>, now: string): AppState
  {
    if action.None? then s
    else if action.value.name == "back_to_top" then s.(rendered := [])
    else if action.value.name == "submit_expense" then
      var (record, s') := WithClaim(s, PayloadOf(Decoded(action.value.context, resolve)), now);
      s'.(rendered := ConfirmScreen(record.form))
    else s
  }

  /** An event without an action, and any action other than submit or back, change nothing. */
  lemma HandleIgnores(s: AppState, action: Option<UserAction>, resolve: string -> Option<string>, now: string)
    requires action.None? || action.value.name !in {"back_to_top", "submit_expense"}
    ensures Handle(s, action, resolve, now) == s
  {
  }

  /** `back_to_top` clears the surfaces and stores nothing. */
  lemma HandleBackToTop(s: AppState, ctx: seq<ContextItem>, resolve: string -> Option<string>, now: string)
    ensures Handle(s, Some(UserAction("back_to_top", ctx)), resolve, now) == s.(rendered := [])
  {
  }

  /**
   * A submit stores exactly one record after the earlier claims, with a
   * fresh id and the decoded form, and shows its confirmation.
   */
  lemma HandleSubmit(s: AppState, ctx: seq<ContextItem>, resolve: string -> Option<string>, now: string)
    ensures var s' := Handle(s, Some(UserAction("submit_expense", ctx)), resolve, now);
      && |Loaded(s'.slot)| == |Loaded(s.slot)| + 1
      && Loaded(s'.slot)[..|Loaded(s.slot)|] == Loaded(s.slot)
      && Loaded(s'.slot)[|Loaded(s.slot)|] == ExpenseRecord(IdFor(s.issued), now, PayloadOf(Decoded(ctx, resolve)))
      && s'.issued == s.issued + 1
      && s'.rendered == ConfirmScreen(PayloadOf(Decoded(ctx, resolve)))
  {
    var s' := Handle(s, Some(UserAction("submit_expense", ctx)), resolve, now);
    assert Loaded(s'.slot) == Loaded(s.slot) + [ExpenseRecord(IdFor(s.issued), now, PayloadOf(Decoded(ctx, resolve)))];
  }

  /** Two submits in a row store two records with different ids, even for the same form. */
  lemma SubmitsGetFreshIds(s: AppState, ctx: seq<ContextItem>, resolve: string -> Option<string>, now1: string, now2: string)
    ensures var a := Some(UserAction("submit_expense", ctx));
      var s1 := Handle(s, a, resolve, now1);
      var s2 := Handle(s1, a, resolve, now2);
      |Loaded(s2.slot)| == |Loaded(s.slot)| + 2
      && Loaded(s2.slot)[|Loaded(s.slot)|].id != Loaded(s2.slot)[|Loaded(s.slot)| + 1].id
  {
    var a := Some(UserAction("submit_expense", ctx));
    HandleSubmit(s, ctx, resolve, now1);
    var s1 := Handle(s, a, resolve, now1);
    HandleSubmit(s1, ctx, resolve, now2);
    IdForFresh(s.issued, s.issued + 1);
  }

  class App {

    var slot: Slot
    var rendered: seq<Message>
    var issued: nat

    function State(): AppState
      reads this
    {
      AppState(slot, rendered, issued)
    }

    /** `loadClaims()`. */
    function LoadClaims(): (claims: seq<ExpenseRecord>)
      reads this
      ensures !slot.Stored? ==> claims == []
    {
      Loaded(slot)
    }

    /** `searchClaims(query)`: every claim for an empty query, the matching ones in order otherwise. */
    function SearchClaims(query: string, toLower: string -> string): (found: seq<ExpenseRecord>)
      reads this
      ensures query == "" ==> found == LoadClaims()
      ensures forall c :: c in found ==> c in LoadClaims()
    {
      SearchSubset(Loaded(slot), query, toLower);
      Search(Loaded(slot), query, toLower)
    }

    /** `addClaim(payload)`: reads the list, appends the new record and writes the list back. */
    method AddClaim(payload: ExpenseForm, now: string) returns (record: ExpenseRecord)
      modifies this
      ensures (record, State()) == WithClaim(old(State()), payload, now)
    {
      var claims := LoadClaims();
      record := ExpenseRecord(IdFor(issued), now, payload);
      issued := issued + 1;
      slot := Stored(claims + [record]);
    }

    /** `handleSearch(query)`: shows the search results for the query. */
    method HandleSearch(query: string, toLower: string -> string)
      modifies this
      ensures rendered == SearchScreen(FormsOf(old(SearchClaims(query, toLower))))
      ensures slot == old(slot) && issued == old(issued)
    {
      var results := SearchClaims(query, toLower);
      rendered := SearchScreen(FormsOf(results));
    }

    /** `handleA2uiAction`: after the back check, the context is decoded before the submit name is checked. */
    method HandleA2uiAction(action: Option<UserAction>, resolve: string -> Option<string>, now: string)
      modifies this
      ensures State() == Handle(old(State()), action, resolve, now)
    {
      if action.None? {
        return;
      }
      if action.value.name == "back_to_top" {
        rendered := [];
        return;
      }
      var context := DecodeContext(action.value.context, resolve);
      if action.value.name == "submit_expense" {
        var payload := PayloadOf(context);
        var record := AddClaim(payload, now);
        rendered := ConfirmScreen(record.form);
      }
    }
  }

  /** The forms of the given records, in order. */
  function FormsOf(records: seq<ExpenseRecord>): (fs: seq<ExpenseForm>)
    ensures |fs| == |records|
    ensures forall i :: 0 <= i < |records| ==> fs[i] == records[i].form
  {
    seq(|records|, i requires 0 <= i < |records| => records[i].form)
  }

  /**
   * The client's result list holds one item per record, keyed `item1`,
   * `item2`, ... in order, with the record's merchant, date, category, memo
   * and receipt name, and an amount that reads as the amount, a space and
   * the currency.
   */
  lemma SearchItemsNumbered(records: seq<ExpenseRecord>, i: nat)
    requires i < |records|
    ensures |ResultItems(FormsOf(records))| == |records|
    ensures ResultItems(FormsOf(records))[i].key == "item" + NatToString(i + 1)
    ensures DataKeys(ResultItems(FormsOf(records))[i].entries) == ItemKeys
    ensures ResultItems(FormsOf(records))[i].entries[2].str
      == records[i].form.amount + " " + records[i].form.currency
    ensures ResultItems(FormsOf(records))[i].entries[0].str == records[i].form.merchant
    ensures ResultItems(FormsOf(records))[i].entries[1].str == records[i].form.date
    ensures ResultItems(FormsOf(records))[i].entries[3].str == records[i].form.category
    ensures ResultItems(FormsOf(records))[i].entries[4].str == records[i].form.memo
    ensures ResultItems(FormsOf(records))[i].entries[5].str == records[i].form.receiptName
  {
    var e := StringEntries(ItemKeys, ItemValues(records[i].form));
    assert DataKeys(e) == ItemKeys;
  }
}
