/**
 * The three screens of the expense application: the expense form, the
 * confirmation card and the search-result list. The agent
 * (agent/ui_builder.py) and the browser client (client/src/App.tsx) write
 * the same component trees; they differ only in where the eight field
 * values come from, so the trees are defined here once, over the values.
 */
module Screens {

  import opened Base
  import opened A2ui

  /** The eight fields of an expense draft, all strings. */
  datatype ExpenseForm = ExpenseForm(
    receiptName: string, merchant: string, date: string, amount: string,
    currency: string, category: string, paymentMethod: string, memo: string)

  const FormKeys: seq<string> :=
    ["receiptName", "merchant", "date", "amount", "currency", "category", "paymentMethod", "memo"]

  lemma FormKeysDistinct()
    ensures forall i, j :: 0 <= i < j < |FormKeys| ==> FormKeys[i] != FormKeys[j]
  {
  }

  /** The keys of the confirmation data model: amount and currency become one display string. */
  const ConfirmKeys: seq<string> :=
    ["receiptName", "merchant", "date", "amountDisplay", "category", "paymentMethod", "memo"]

  /** The keys of one search-result item. */
  const ItemKeys: seq<string> :=
    ["merchant", "date", "amountDisplay", "category", "memo", "receiptName"]

  /** The field values in the order of FormKeys. */
  function FormValues(f: ExpenseForm): seq<string>
  {
    [f.receiptName, f.merchant, f.date, f.amount, f.currency, f.category, f.paymentMethod, f.memo]
  }

  /** `f"{amount} {currency}"` / `` `${amount} ${currency}` ``. */
  function AmountDisplay(f: ExpenseForm): string
  {
    f.amount + " " + f.currency
  }

  /** The data-model entries whose keys are `keys` and whose strings are `values`. */
  function StringEntries(keys: seq<string>, values: seq<string>): (r: seq<DataEntry>)
    requires |keys| == |values|
    ensures |r| == |keys|
    ensures forall i :: 0 <= i < |keys| ==> r[i] == ValueString(keys[i], values[i])
  {
    seq(|keys|, i requires 0 <= i < |keys| => ValueString(keys[i], values[i]))
  }

  // ---------------------------------------------------------------------
  // Expense form
  // ---------------------------------------------------------------------

  /** Each key bound to the data-model path of the same name, in order. */
  function PathBindings(keys: seq<string>): (r: seq<ContextEntry>)
    ensures |r| == |keys|
    ensures forall i :: 0 <= i < |keys| ==> r[i] == ContextEntry(keys[i], Path(keys[i]))
  {
    seq(|keys|, i requires 0 <= i < |keys| => ContextEntry(keys[i], Path(keys[i])))
  }

  /** The submit button's action: each of the eight fields, in order, bound to its path. */
  const SubmitAction := Action("submit_expense", PathBindings(FormKeys))

  const FormComponents: seq<Component> := [
    Component("expense-root", Column(ExplicitList([
      "form-title", "receipt-name", "merchant-field", "date-field", "amount-field",
      "currency-field", "category-field", "payment-field", "memo-field", "submit-button"]))),
    Component("form-title", Text(Literal("経費申請フォーム"), Some("h2"))),
    Component("receipt-name", Text(Path("receiptName"), None)),
    Component("merchant-field", TextField(Literal("支払先"), Path("merchant"), "shortText")),
    Component("date-field", TextField(Literal("日付"), Path("date"), "date")),
    Component("amount-field", TextField(Literal("金額"), Path("amount"), "number")),
    Component("currency-field", TextField(Literal("通貨"), Path("currency"), "shortText")),
    Component("category-field", TextField(Literal("カテゴリ"), Path("category"), "shortText")),
    Component("payment-field", TextField(Literal("支払方法"), Path("paymentMethod"), "shortText")),
    Component("memo-field", TextField(Literal("備考"), Path("memo"), "longText")),
    Component("submit-button", Button("submit-button-text", true, SubmitAction)),
    Component("submit-button-text", Text(Literal("申請する"), None))]

  function FormScreen(f: ExpenseForm): seq<Message>
  {
    [ BeginRendering("expense-form", "expense-root", AppStyles),
      SurfaceUpdate("expense-form", FormComponents),
      DataModelUpdate("expense-form", "/", StringEntries(FormKeys, FormValues(f)))]
  }

  /**
   * The expense form for a draft is one well-formed screen: the root column
   * lists every field and the submit button, the button sends
   * `submit_expense` with all eight fields bound to their data-model paths,
   * and the data model holds the eight draft values in the fixed field order.
   */
  lemma FormScreenSound(f: ExpenseForm)
    ensures WellFormedScreen(FormScreen(f))
    ensures FormScreen(f)[0].surfaceId == "expense-form" && FormScreen(f)[0].root == "expense-root"
    ensures FormScreen(f)[2].contents == StringEntries(FormKeys, FormValues(f))
    ensures ActionOf(FormScreen(f)[1].components, "submit-button").Some?
    ensures ActionOf(FormScreen(f)[1].components, "submit-button").value.name == "submit_expense"
    ensures BindsDataModel(ActionOf(FormScreen(f)[1].components, "submit-button").value, FormScreen(f)[2].contents)
  {
    var r := FormScreen(f);
    assert r[1].components == FormComponents;
    FormComponentsSound();
  }

  lemma FormComponentsSound()
    ensures "expense-root" in Ids(FormComponents)
    ensures DistinctIds(FormComponents) && RefsDefined(FormComponents)
    ensures ActionOf(FormComponents, "submit-button") == Some(SubmitAction)
  {
    FormIds();
    FormDistinct();
    FormRefs();
    FormSubmit();
  }

  lemma FormSubmit()
    ensures ActionOf(FormComponents, "submit-button") == Some(SubmitAction)
  {
    FormDistinct();
    FindDistinct(FormComponents, 10);
  }

  lemma FormRefs()
    ensures RefsDefined(FormComponents)
  {
    FormIds();
    forall i | 0 <= i < |FormComponents|
      ensures forall r :: r in ChildRefs(FormComponents[i].widget) ==> r in Ids(FormComponents)
    {
    }
  }

  lemma FormIds()
    ensures Ids(FormComponents) == [
      "expense-root", "form-title", "receipt-name", "merchant-field", "date-field", "amount-field",
      "currency-field", "category-field", "payment-field", "memo-field", "submit-button",
      "submit-button-text"]
  {
  }

  lemma FormDistinct()
    ensures DistinctIds(FormComponents)
  {
    var ids := [
        "expense-root", "form-title", "receipt-name", "merchant-field", "date-field", "amount-field",
        "currency-field", "category-field", "payment-field", "memo-field", "submit-button",
        "submit-button-text"];
    FormIds();
    assert forall i, j :: 0 <= i < j < |ids| ==> ids[i] != ids[j];
    DistinctIdList(FormComponents, ids);
  }

  // ---------------------------------------------------------------------
  // Confirmation
  // ---------------------------------------------------------------------

  const ConfirmComponents: seq<Component> := [
    Component("confirm-card", Card("confirm-column")),
    Component("confirm-column", Column(ExplicitList([
      "confirm-title", "confirm-receipt", "confirm-merchant", "confirm-date", "confirm-amount",
      "confirm-category", "confirm-payment", "confirm-memo", "confirm-back"]))),
    Component("confirm-title", Text(Literal("申請が完了しました"), Some("h2"))),
    Component("confirm-receipt", Text(Path("receiptName"), None)),
    Component("confirm-merchant", Text(Path("merchant"), None)),
    Component("confirm-date", Text(Path("date"), None)),
    Component("confirm-amount", Text(Path("amountDisplay"), None)),
    Component("confirm-category", Text(Path("category"), None)),
    Component("confirm-payment", Text(Path("paymentMethod"), None)),
    Component("confirm-memo", Text(Path("memo"), None)),
    Component("confirm-back", Button("confirm-back-text", false, Action("back_to_top", []))),
    Component("confirm-back-text", Text(Literal("TOPに戻る"), None))]

  function ConfirmValues(f: ExpenseForm): seq<string>
  {
    [f.receiptName, f.merchant, f.date, AmountDisplay(f), f.category, f.paymentMethod, f.memo]
  }

  function ConfirmScreen(f: ExpenseForm): seq<Message>
  {
    [ BeginRendering("expense-confirm", "confirm-card", AppStyles),
      SurfaceUpdate("expense-confirm", ConfirmComponents),
      DataModelUpdate("expense-confirm", "/", StringEntries(ConfirmKeys, ConfirmValues(f)))]
  }

  /**
   * The confirmation card for a stored claim is one well-formed screen:
   * seven read-only entries, the amount shown together with its currency and
   * no separate amount or currency entry, and a button that sends
   * `back_to_top`.
   */
  lemma ConfirmScreenSound(f: ExpenseForm)
    ensures WellFormedScreen(ConfirmScreen(f))
    ensures ConfirmScreen(f)[0].surfaceId == "expense-confirm" && ConfirmScreen(f)[0].root == "confirm-card"
    ensures ConfirmScreen(f)[2].contents == StringEntries(ConfirmKeys, ConfirmValues(f))
    ensures "amount" !in DataKeys(ConfirmScreen(f)[2].contents)
    ensures "currency" !in DataKeys(ConfirmScreen(f)[2].contents)
    ensures ActionOf(ConfirmScreen(f)[1].components, "confirm-back") == Some(Action("back_to_top", []))
  {
    var r := ConfirmScreen(f);
    assert r[1].components == ConfirmComponents;
    ConfirmComponentsSound();
    ConfirmKeysShown(f);
  }

  lemma ConfirmKeysShown(f: ExpenseForm)
    ensures DataKeys(StringEntries(ConfirmKeys, ConfirmValues(f))) == ConfirmKeys
    ensures "amount" !in ConfirmKeys && "currency" !in ConfirmKeys
  {
  }

  lemma ConfirmComponentsSound()
    ensures "confirm-card" in Ids(ConfirmComponents)
    ensures DistinctIds(ConfirmComponents) && RefsDefined(ConfirmComponents)
    ensures ActionOf(ConfirmComponents, "confirm-back") == Some(Action("back_to_top", []))
  {
    ConfirmIds();
    ConfirmDistinct();
    ConfirmRefs();
    ConfirmBack();
  }

  lemma ConfirmBack()
    ensures ActionOf(ConfirmComponents, "confirm-back") == Some(Action("back_to_top", []))
  {
    ConfirmDistinct();
    FindDistinct(ConfirmComponents, 10);
  }

  lemma ConfirmRefs()
    ensures RefsDefined(ConfirmComponents)
  {
    ConfirmIds();
    forall i | 0 <= i < |ConfirmComponents|
      ensures forall r :: r in ChildRefs(ConfirmComponents[i].widget) ==> r in Ids(ConfirmComponents)
    {
    }
  }

  lemma ConfirmIds()
    ensures Ids(ConfirmComponents) == [
      "confirm-card", "confirm-column", "confirm-title", "confirm-receipt", "confirm-merchant",
      "confirm-date", "confirm-amount", "confirm-category", "confirm-payment", "confirm-memo",
      "confirm-back", "confirm-back-text"]
  {
  }

  lemma ConfirmDistinct()
    ensures DistinctIds(ConfirmComponents)
  {
    var ids := [
        "confirm-card", "confirm-column", "confirm-title", "confirm-receipt", "confirm-merchant",
        "confirm-date", "confirm-amount", "confirm-category", "confirm-payment", "confirm-memo",
        "confirm-back", "confirm-back-text"];
    ConfirmIds();
    assert forall i, j :: 0 <= i < j < |ids| ==> ids[i] != ids[j];
    DistinctIdList(ConfirmComponents, ids);
  }

  // ---------------------------------------------------------------------
  // Search results
  // ---------------------------------------------------------------------

  const SearchComponents: seq<Component> := [
    Component("results-root", Column(ExplicitList(["results-title", "results-list"]))),
    Component("results-title", Text(Literal("検索結果"), Some("h2"))),
    Component("results-list", List("vertical", Template("/items", "result-card-template"))),
    Component("result-card-template", Card("result-card-column")),
    Component("result-card-column", Column(ExplicitList([
      "result-merchant", "result-date", "result-amount", "result-category", "result-memo",
      "result-receipt"]))),
    Component("result-merchant", Text(Path("merchant"), None)),
    Component("result-date", Text(Path("date"), None)),
    Component("result-amount", Text(Path("amountDisplay"), None)),
    Component("result-category", Text(Path("category"), None)),
    Component("result-memo", Text(Path("memo"), None)),
    Component("result-receipt", Text(Path("receiptName"), None))]

  /** `item1`, `item2`, ... */
  function ItemKey(n: nat): string
  {
    "item" + NatToString(n)
  }

  function ItemValues(f: ExpenseForm): seq<string>
  {
    [f.merchant, f.date, AmountDisplay(f), f.category, f.memo, f.receiptName]
  }

  /** The data-model item for the n-th result (counting from 1). */
  function ResultItem(n: nat, f: ExpenseForm): DataEntry
  {
    ValueMap(ItemKey(n), StringEntries(ItemKeys, ItemValues(f)))
  }

  function ResultItems(results: seq<ExpenseForm>): (items: seq<DataEntry>)
    ensures |items| == |results|
    ensures forall i :: 0 <= i < |results| ==> items[i] == ResultItem(i + 1, results[i])
  {
    seq(|results|, i requires 0 <= i < |results| => ResultItem(i + 1, results[i]))
  }

  lemma ResultItemsSnoc(results: seq<ExpenseForm>, f: ExpenseForm)
    ensures ResultItems(results + [f]) == ResultItems(results) + [ResultItem(|results| + 1, f)]
  {
    var a, b := ResultItems(results + [f]), ResultItems(results) + [ResultItem(|results| + 1, f)];
    forall k | 0 <= k < |a|
      ensures a[k] == b[k]
    {
      assert (results + [f])[k] == if k < |results| then results[k] else f;
    }
  }

  /** Result items are keyed by position, so no two items share a key. */
  lemma ItemKeysDistinct(results: seq<ExpenseForm>, i: nat, j: nat)
    requires i < j < |results|
    ensures ResultItems(results)[i].key != ResultItems(results)[j].key
  {
    var items := ResultItems(results);
    if items[i].key == items[j].key {
      assert ItemKey(i + 1)[4..] == NatToString(i + 1);
      assert ItemKey(j + 1)[4..] == NatToString(j + 1);
      NatToStringInjective(i + 1, j + 1);
    }
  }

  function SearchScreen(results: seq<ExpenseForm>): seq<Message>
  {
    [ BeginRendering("expense-search", "results-root", AppStyles),
      SurfaceUpdate("expense-search", SearchComponents),
      DataModelUpdate("expense-search", "/", [ValueMap("items", ResultItems(results))])]
  }

  /**
   * The search-result list is one well-formed screen, also when there is no
   * result: a list component repeats the template `result-card-template` (a
   * defined component) for each element bound at `/items`, and the data model
   * holds one item per result, in result order.
   */
  lemma SearchScreenSound(results: seq<ExpenseForm>)
    ensures WellFormedScreen(SearchScreen(results))
    ensures SearchScreen(results)[0].surfaceId == "expense-search"
    ensures SearchScreen(results)[0].root == "results-root"
    ensures Find(SearchScreen(results)[1].components, "results-list")
      == Some(Component("results-list", List("vertical", Template("/items", "result-card-template"))))
    ensures SearchScreen(results)[2].contents == [ValueMap("items", ResultItems(results))]
  {
    var r := SearchScreen(results);
    assert r[1].components == SearchComponents;
    SearchComponentsSound();
  }

  lemma SearchComponentsSound()
    ensures "results-root" in Ids(SearchComponents)
    ensures DistinctIds(SearchComponents) && RefsDefined(SearchComponents)
    ensures Find(SearchComponents, "results-list") == Some(SearchComponents[2])
  {
    SearchIds();
    SearchDistinct();
    SearchRefs();
    SearchList();
  }

  lemma SearchList()
    ensures Find(SearchComponents, "results-list") == Some(SearchComponents[2])
  {
    SearchDistinct();
    FindDistinct(SearchComponents, 2);
  }

  lemma SearchRefs()
    ensures RefsDefined(SearchComponents)
  {
    SearchIds();
    forall i | 0 <= i < |SearchComponents|
      ensures forall r :: r in ChildRefs(SearchComponents[i].widget) ==> r in Ids(SearchComponents)
    {
    }
  }

  lemma SearchIds()
    ensures Ids(SearchComponents) == [
      "results-root", "results-title", "results-list", "result-card-template",
      "result-card-column", "result-merchant", "result-date", "result-amount",
      "result-category", "result-memo", "result-receipt"]
  {
  }

  lemma SearchDistinct()
    ensures DistinctIds(SearchComponents)
  {
    var ids := [
        "results-root", "results-title", "results-list", "result-card-template",
        "result-card-column", "result-merchant", "result-date", "result-amount",
        "result-category", "result-memo", "result-receipt"];
    SearchIds();
    assert forall i, j :: 0 <= i < j < |ids| ==> ids[i] != ids[j];
    DistinctIdList(SearchComponents, ids);
  }
}
