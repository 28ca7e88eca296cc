/**
 * The agent's A2UI screen builders. Each takes a Python dictionary (a draft,
 * a stored claim, a list of claims), reads the expense fields with
 * `dict.get` and a default, and emits the corresponding screen.
 */
module UiBuilder {

  import opened Base
  import opened Dicts
  import opened A2ui
  import opened Screens

  /** The defaults the form uses for fields missing from the draft, in the order of FormKeys. */
  const FormFallbacks: seq<string> := ["", "", "", "", "JPY", "", "", ""]

  /** Field `i` of the draft: `data.get(FormKeys[i], default)` with the field's default. */
  function DraftField(data: Dict, i: nat): string
    requires i < |FormKeys|
  {
    Get(data, FormKeys[i], FormFallbacks[i])
  }

  /** The draft shown by the form: `data.get(key, "")`, with currency defaulting to `"JPY"`. */
  function FormDraft(data: Dict): ExpenseForm
  {
    ExpenseForm(
      DraftField(data, 0), DraftField(data, 1), DraftField(data, 2), DraftField(data, 3),
      DraftField(data, 4), DraftField(data, 5), DraftField(data, 6), DraftField(data, 7))
  }

  /** A stored claim read with `record.get(key, "")` for every field, currency included. */
  function ClaimFields(record: Dict): ExpenseForm
  {
    ExpenseForm(
      Get(record, FormKeys[0], ""), Get(record, FormKeys[1], ""), Get(record, FormKeys[2], ""),
      Get(record, FormKeys[3], ""), Get(record, FormKeys[4], ""), Get(record, FormKeys[5], ""),
      Get(record, FormKeys[6], ""), Get(record, FormKeys[7], ""))
  }

  /** Each draft field is the draft's value when it has the key and the field's default otherwise. */
  lemma FormDraftValues(data: Dict)
    ensures forall i :: 0 <= i < |FormKeys| ==>
      FormValues(FormDraft(data))[i] == Get(data, FormKeys[i], FormFallbacks[i])
  {
    var vs := FormValues(FormDraft(data));
    assert vs == [DraftField(data, 0), DraftField(data, 1), DraftField(data, 2), DraftField(data, 3),
                  DraftField(data, 4), DraftField(data, 5), DraftField(data, 6), DraftField(data, 7)];
    forall i | 0 <= i < 8
      ensures vs[i] == DraftField(data, i)
    {
      if i == 0 {} else if i == 1 {} else if i == 2 {} else if i == 3 {}
      else if i == 4 {} else if i == 5 {} else if i == 6 {} else {}
    }
  }

  /** The confirmation shows each plain field of the claim with default `""`. */
  lemma ClaimValues(record: Dict)
    ensures forall i :: 0 <= i < |ConfirmKeys| && i != 3 ==>
      ConfirmValues(ClaimFields(record))[i] == Get(record, ConfirmKeys[i], "")
    ensures ConfirmValues(ClaimFields(record))[3]
      == Get(record, "amount", "") + " " + Get(record, "currency", "")
  {
    var f := ClaimFields(record);
    forall i | 0 <= i < |ConfirmKeys| && i != 3
      ensures ConfirmValues(f)[i] == Get(record, ConfirmKeys[i], "")
    {
      if i == 0 {} else if i == 1 {} else if i == 2 {} else if i == 4 {}
      else if i == 5 {} else {}
    }
  }

  /** `build_expense_form(data)`. */
  function BuildExpenseForm(data: Dict): seq<Message>
  {
    FormScreen(FormDraft(data))
  }

  /**
   * The form is one well-formed screen on surface `expense-form`; its data
   * model lists the eight fields in order, each holding the draft's value
   * when the draft has the key and the field's default otherwise; and the
   * submit button sends exactly those eight entries back.
   */
  lemma BuildExpenseFormSound(data: Dict)
    ensures WellFormedScreen(BuildExpenseForm(data))
    ensures BuildExpenseForm(data)[0].surfaceId == "expense-form"
    ensures BuildExpenseForm(data)[0].root == "expense-root"
    ensures DataKeys(BuildExpenseForm(data)[2].contents) == FormKeys
    ensures forall i :: 0 <= i < |FormKeys| ==>
      BuildExpenseForm(data)[2].contents[i].str == Get(data, FormKeys[i], FormFallbacks[i])
    ensures ActionOf(BuildExpenseForm(data)[1].components, "submit-button").Some?
    ensures ActionOf(BuildExpenseForm(data)[1].components, "submit-button").value.name == "submit_expense"
    ensures BindsDataModel(ActionOf(BuildExpenseForm(data)[1].components, "submit-button").value,
                           BuildExpenseForm(data)[2].contents)
  {
    FormScreenSound(FormDraft(data));
    FormDraftValues(data);
    var contents := StringEntries(FormKeys, FormValues(FormDraft(data)));
    assert DataKeys(contents) == FormKeys;
  }

  /** A field missing from the draft shows `""`, except a missing currency, which shows `"JPY"`. */
  lemma MissingFieldDefaults(data: Dict, i: nat)
    requires i < |FormKeys| && !HasKey(data, FormKeys[i])
    ensures BuildExpenseForm(data)[2].contents[i].str == if FormKeys[i] == "currency" then "JPY" else ""
  {
    var contents := BuildExpenseForm(data)[2].contents;
    assert contents == StringEntries(FormKeys, FormValues(FormDraft(data)));
    FormDraftValues(data);
    FormKeysDistinct();
    if i != 4 {
      assert FormKeys[i] != FormKeys[4];
      assert FormFallbacks[i] == "" by {
        assert FormFallbacks == ["", "", "", "", "JPY", "", "", ""];
      }
    }
  }

  /** `build_confirmation(record)`. */
  function BuildConfirmation(record: Dict): seq<Message>
  {
    ConfirmScreen(ClaimFields(record))
  }

  /**
   * The confirmation is one well-formed screen on surface `expense-confirm`
   * with seven entries: the six plain fields read with default `""`, and
   * `amountDisplay`, the amount, a space and the currency (each defaulting
   * to `""`); there is no separate amount or currency entry, and the back
   * button sends `back_to_top`.
   */
  lemma BuildConfirmationSound(record: Dict)
    ensures WellFormedScreen(BuildConfirmation(record))
    ensures BuildConfirmation(record)[0].surfaceId == "expense-confirm"
    ensures BuildConfirmation(record)[0].root == "confirm-card"
    ensures DataKeys(BuildConfirmation(record)[2].contents) == ConfirmKeys
    ensures "amount" !in DataKeys(BuildConfirmation(record)[2].contents)
    ensures "currency" !in DataKeys(BuildConfirmation(record)[2].contents)
    ensures BuildConfirmation(record)[2].contents[3].str
      == Get(record, "amount", "") + " " + Get(record, "currency", "")
    ensures forall i :: 0 <= i < |ConfirmKeys| && i != 3 ==>
      BuildConfirmation(record)[2].contents[i].str == Get(record, ConfirmKeys[i], "")
    ensures ActionOf(BuildConfirmation(record)[1].components, "confirm-back")
      == Some(Action("back_to_top", []))
  {
    ConfirmScreenSound(ClaimFields(record));
    ConfirmKeysShown(ClaimFields(record));
    ClaimValues(record);
  }

  /** The expense fields of every claim of `results`, in order. */
  function ResultForms(results: seq<Dict>): (fs: seq<ExpenseForm>)
    ensures |fs| == |results|
    ensures forall i :: 0 <= i < |results| ==> fs[i] == ClaimFields(results[i])
  {
    seq(|results|, i requires 0 <= i < |results| => ClaimFields(results[i]))
  }

  /**
   * `build_search_results(results)`: the items are collected one claim at a
   * time, numbering from 1, and the screen holds them under `items`.
   */
  method BuildSearchResults(results: seq<Dict>) returns (msgs: seq<Message>)
    ensures msgs == SearchScreen(ResultForms(results))
    ensures WellFormedScreen(msgs)
    ensures msgs[2].contents == [ValueMap("items", ResultItems(ResultForms(results)))]
  {
    var items := CollectItems(results);
    msgs := [
      BeginRendering("expense-search", "results-root", AppStyles),
      SurfaceUpdate("expense-search", SearchComponents),
      DataModelUpdate("expense-search", "/", [ValueMap("items", items)])];
    SearchScreenSound(ResultForms(results));
  }

  /** The `enumerate` loop of `build_search_results`: one item per claim, numbered from 1. */
  method CollectItems(results: seq<Dict>) returns (items: seq<DataEntry>)
    ensures items == ResultItems(ResultForms(results))
  {
    items := [];
    var idx := 1;
    while idx <= |results|
      invariant 1 <= idx <= |results| + 1
      invariant items == ResultItems(ResultForms(results[..idx - 1]))
    {
      CollectStep(results, idx);
      items := items + [ResultItem(idx, ClaimFields(results[idx - 1]))];
      idx := idx + 1;
    }
    assert results[..|results|] == results;
  }

  /** One more claim adds one item, numbered after the items before it. */
  lemma CollectStep(results: seq<Dict>, idx: nat)
    requires 1 <= idx <= |results|
    ensures ResultItems(ResultForms(results[..idx]))
      == ResultItems(ResultForms(results[..idx - 1])) + [ResultItem(idx, ClaimFields(results[idx - 1]))]
  {
    assert results[..idx] == results[..idx - 1] + [results[idx - 1]];
    ResultFormsSnoc(results[..idx - 1], results[idx - 1]);
    ResultItemsSnoc(ResultForms(results[..idx - 1]), ClaimFields(results[idx - 1]));
  }

  lemma ResultFormsSnoc(results: seq<Dict>, claim: Dict)
    ensures ResultForms(results + [claim]) == ResultForms(results) + [ClaimFields(claim)]
  {
    var a, b := ResultForms(results + [claim]), ResultForms(results) + [ClaimFields(claim)];
    forall k | 0 <= k < |a|
      ensures a[k] == b[k]
    {
      assert (results + [claim])[k] == if k < |results| then results[k] else claim;
    }
  }

  /**
   * The search screen holds one item per claim, keyed `item1`, `item2`, ...
   * in the order of `results`, each with the six keys merchant, date,
   * amountDisplay, category, memo, receiptName, read with default `""`.
   */
  lemma SearchItemsSound(results: seq<Dict>, i: nat)
    requires i < |results|
    ensures |ResultItems(ResultForms(results))| == |results|
    ensures ResultItems(ResultForms(results))[i].key == "item" + NatToString(i + 1)
    ensures DataKeys(ResultItems(ResultForms(results))[i].entries) == ItemKeys
    ensures ResultItems(ResultForms(results))[i].entries[2].str
      == Get(results[i], "amount", "") + " " + Get(results[i], "currency", "")
    ensures ResultItems(ResultForms(results))[i].entries[0].str == Get(results[i], "merchant", "")
    ensures ResultItems(ResultForms(results))[i].entries[1].str == Get(results[i], "date", "")
    ensures ResultItems(ResultForms(results))[i].entries[3].str == Get(results[i], "category", "")
    ensures ResultItems(ResultForms(results))[i].entries[4].str == Get(results[i], "memo", "")
    ensures ResultItems(ResultForms(results))[i].entries[5].str == Get(results[i], "receiptName", "")
  {
    var e := StringEntries(ItemKeys, ItemValues(ClaimFields(results[i])));
    assert DataKeys(e) == ItemKeys;
  }

  /**
   * On a draft that holds all eight fields, the agent's form and the
   * client's form (built from the same values) are the same screen.
   */
  lemma FormAgreesWithClient(data: Dict, f: ExpenseForm)
    requires forall i :: 0 <= i < |FormKeys| ==> Get(data, FormKeys[i], FormFallbacks[i]) == FormValues(f)[i]
    ensures BuildExpenseForm(data) == FormScreen(f)
  {
    assert FormDraft(data) == f by {
      assert FormValues(FormDraft(data)) == FormValues(f);
    }
  }
}
