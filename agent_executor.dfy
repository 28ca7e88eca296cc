/**
 * One turn of the expense agent: the parts of the incoming message are
 * classified into an action name, an action context and a text input; the
 * turn then either asks for an A2UI client, reads a receipt into a draft
 * form, stores a submitted claim, searches the stored claims, or answers
 * with a short text; and it reports one status update whose task state and
 * `final` flag follow from the branch taken.
 */
module AgentExecutor {

  import opened Base
  import opened Dicts
  import opened A2ui
  import opened Screens
  import opened UiBuilder
  import opened Storage
  import opened Ocr

  // ---------------------------------------------------------------------
  // Message parts
  // ---------------------------------------------------------------------

  /**
   * The fields of an action dictionary the agent reads. A name field is
   * `None` when the key is absent or holds JSON null; `context` is `None`
   * when absent or null, and an empty context stands for any falsy one.
   */
  datatype ActionFields = ActionFields(
    actionName: Option<string>, name: Option<string>, action: Option<string>, context: Option<Dict>)

  /** The data of a data part: a dictionary with a `userAction` entry, any other dictionary, or no dictionary. */
  datatype Data =
    | UserActionData(event: ActionFields)
    | PlainData(fields: ActionFields)
    | NonDictData

  datatype Part = DataPart(data: Data) | TextPart(text: string) | FilePart

  /** What the part loop leaves behind. */
  datatype Classification = Classification(actionName: Option<string>, context: Dict, textInput: string)

  /** Python truthiness of an optional string. */
  predicate Truthy(v: Option<string>)
  {
    v.Some? && v.value != ""
  }

  /** Python's `a or b`: `a` when it is truthy, `b` otherwise. */
  function Or(a: Option<string>, b: Option<string>): (r: Option<string>)
    ensures Truthy(r) <==> Truthy(a) || Truthy(b)
  {
    if Truthy(a) then a else b
  }

  /** `x.get("context", {}) or {}`. */
  function ContextOf(f: ActionFields): Dict
  {
    if f.context.Some? then f.context.value else []
  }

  /** The action name a dictionary data part sets. */
  function NameOf(d: Data): Option<string>
    requires !d.NonDictData?
  {
    match d
    case UserActionData(e) => Or(Or(e.actionName, e.name), e.action)
    case PlainData(f) => Or(f.actionName, f.action)
  }

  function Step(c: Classification, part: Part): Classification
  {
    match part
    case DataPart(d) =>
      if d.NonDictData? then c
      else c.(actionName := NameOf(d), context := ContextOf(if d.UserActionData? then d.event else d.fields))
    case TextPart(t) => c.(textInput := t)
    case FilePart => c
  }

  const Initial := Classification(None, [], "")

  /** The classification after the given parts, processed in order. */
  function Classify(parts: seq<Part>): Classification
    decreases |parts|
  {
    if parts == [] then Initial else Step(Classify(parts[..|parts| - 1]), parts[|parts| - 1])
  }

  predicate IsDictPart(p: Part)
  {
    p.DataPart? && !p.data.NonDictData?
  }

  /** The loop over the message parts; a message without parts leaves the initial values. */
  method ClassifyParts(parts: seq<Part>) returns (c: Classification)
    ensures c == Classify(parts)
  {
    c := Initial;
    for i := 0 to |parts|
      invariant c == Classify(parts[..i])
    {
      assert parts[..i + 1][..i] == parts[..i];
      c := Step(c, parts[i]);
    }
    assert parts[..|parts|] == parts;
  }

  /**
   * The last dictionary data part decides the action name and the context;
   * with no such part the name is `None` and the context empty.
   */
  lemma {:induction false} LastDataPartWins(parts: seq<Part>, i: nat)
    requires i < |parts| && IsDictPart(parts[i])
    requires forall j :: i < j < |parts| ==> !IsDictPart(parts[j])
    ensures Classify(parts).actionName == NameOf(parts[i].data)
    ensures Classify(parts).context
      == ContextOf(if parts[i].data.UserActionData? then parts[i].data.event else parts[i].data.fields)
    decreases |parts|
  {
    if i < |parts| - 1 {
      var init := parts[..|parts| - 1];
      assert forall j :: i < j < |init| ==> init[j] == parts[j];
      LastDataPartWins(init, i);
    } else {
      assert parts[i] == parts[|parts| - 1];
    }
  }

  lemma {:induction false} NoDataPart(parts: seq<Part>)
    requires forall j :: 0 <= j < |parts| ==> !IsDictPart(parts[j])
    ensures Classify(parts).actionName == None && Classify(parts).context == []
    decreases |parts|
  {
    if parts != [] {
      NoDataPart(parts[..|parts| - 1]);
    }
  }

  /** The last text part sets the text input. */
  lemma {:induction false} LastTextWins(parts: seq<Part>, i: nat)
    requires i < |parts| && parts[i].TextPart?
    requires forall j :: i < j < |parts| ==> !parts[j].TextPart?
    ensures Classify(parts).textInput == parts[i].text
    decreases |parts|
  {
    if i < |parts| - 1 {
      var init := parts[..|parts| - 1];
      assert forall j :: i < j < |init| ==> init[j] == parts[j];
      LastTextWins(init, i);
    } else {
      assert parts[i] == parts[|parts| - 1];
    }
  }

  /** With no text part the text input stays `""`. */
  lemma {:induction false} NoTextPart(parts: seq<Part>)
    requires forall j :: 0 <= j < |parts| ==> !parts[j].TextPart?
    ensures Classify(parts).textInput == ""
    decreases |parts|
  {
    if parts != [] {
      NoTextPart(parts[..|parts| - 1]);
    }
  }

  /** `userAction` names are looked up as `actionName`, then `name`, then `action`. */
  lemma UserActionNamePrecedence(e: ActionFields)
    ensures Truthy(e.actionName) ==> NameOf(UserActionData(e)) == e.actionName
    ensures !Truthy(e.actionName) && Truthy(e.name) ==> NameOf(UserActionData(e)) == e.name
    ensures !Truthy(e.actionName) && !Truthy(e.name) ==> NameOf(UserActionData(e)) == e.action
  {
  }

  /** A plain data dictionary has no `name` synonym: its `name` field is never read. */
  lemma PlainDataIgnoresName(f: ActionFields, other: Option<string>)
    ensures NameOf(PlainData(f)) == NameOf(PlainData(f.(name := other)))
    ensures Truthy(f.actionName) ==> NameOf(PlainData(f)) == f.actionName
    ensures !Truthy(f.actionName) ==> NameOf(PlainData(f)) == f.action
  {
  }

  // ---------------------------------------------------------------------
  // The turn
  // ---------------------------------------------------------------------

  datatype TaskState = InputRequired | Completed

  datatype Content = TextMessage(text: string) | A2uiParts(messages: seq<Message>)

  datatype Event =
    | TaskCreated
    | StatusUpdate(state: TaskState, content: Content, final: bool)

  /** How the turn ends: normally, or with the exception the receipt reader raised. */
  datatype Outcome = Finished | Raised(error: OcrError)

  const ConnectMessage := "A2UI対応クライアントから接続してください。"
  const NoUploadMessage := "アップロードデータが見つかりませんでした。"
  const GuidanceMessage := "アップロードまたは検索を行ってください。"
  const NothingMessage := "処理対象が見つかりませんでした。"

  /** The draft the upload branch builds from the receipt reader's result. */
  function UploadFormData(r: OcrResult): Dict
  {
    [ Entry("receiptName", r.receiptName), Entry("merchant", r.merchant), Entry("date", r.date),
      Entry("amount", r.amount), Entry("currency", r.currency), Entry("category", ""),
      Entry("paymentMethod", ""), Entry("memo", "")]
  }

  /** The payload the submit branch stores: the eight fields of the context, each defaulting to `""`. */
  function SubmitPayload(ctx: Dict): Dict
  {
    seq(|FormKeys|, i requires 0 <= i < |FormKeys| => Entry(FormKeys[i], Get(ctx, FormKeys[i], "")))
  }

  /** What a turn reports after the optional task creation, and the store it leaves. */
  datatype Reply = Reply(updates: seq<Event>, outcome: Outcome, claims: seq<Dict>, issued: nat)

  /** One status update that ends the turn. */
  function Report(state: TaskState, content: Content): Event
  {
    StatusUpdate(state, content, state == Completed)
  }

  /** The turn as a function of the store before it, the inputs and the collaborators. */
  function Respond(claims: seq<Dict>, issued: nat, uc: Unicode, engine: Engine, useUi: bool,
                   parts: seq<Part>, now: string): Reply
  {
    var c := Classify(parts);
    var ctx := c.context;
    if !useUi then
      Reply([Report(Completed, TextMessage(ConnectMessage))], Finished, claims, issued)
    else if c.actionName == Some("upload_receipt") then
      var file := Get(ctx, "fileBase64", "");
      if file == "" then
        Reply([Report(Completed, TextMessage(NoUploadMessage))], Finished, claims, issued)
      else
        match ExtractionOf(uc, engine, file, Get(ctx, "fileType", "image/png"), Get(ctx, "fileName", "receipt"))
        case Err(e) => Reply([], Raised(e), claims, issued)
        case Ok(r) => Reply([Report(InputRequired, A2uiParts(BuildExpenseForm(UploadFormData(r))))], Finished, claims, issued)
    else if c.actionName == Some("submit_expense") then
      var record := NewRecord(IdFor(issued), now, SubmitPayload(ctx));
      Reply([Report(Completed, A2uiParts(BuildConfirmation(record)))], Finished, claims + [record], issued + 1)
    else if c.actionName == Some("search_expense") then
      var found := Found(claims, Get(ctx, "query", ""), uc.lower);
      Reply([Report(InputRequired, A2uiParts(SearchScreen(ResultForms(found))))], Finished, claims, issued)
    else if c.textInput != "" then
      Reply([Report(Completed, TextMessage(GuidanceMessage))], Finished, claims, issued)
    else
      Reply([Report(Completed, TextMessage(NothingMessage))], Finished, claims, issued)
  }

  /**
   * `execute`: classifies the parts, opens a task when the request has
   * none, and then takes the branch of the action; the store changes only
   * on a submit.
   */
  method Execute(store: ClaimStore, uc: Unicode, engine: Engine, useUi: bool, hasTask: bool,
                 parts: seq<Part>, now: string)
    returns (events: seq<Event>, outcome: Outcome)
    modifies store
    ensures var r := Respond(old(store.claims), old(store.issued), uc, engine, useUi, parts, now);
      && events == (if hasTask then [] else [TaskCreated]) + r.updates
      && outcome == r.outcome
      && store.claims == r.claims
      && store.issued == r.issued
  {
    var c := ClassifyParts(parts);
    var ctx := c.context;
    events := if hasTask then [] else [TaskCreated];
    outcome := Finished;
    if !useUi {
      events := events + [StatusUpdate(Completed, TextMessage(ConnectMessage), true)];
      return;
    }
    var messages: Option<seq<Message>> := None;
    var finalState := InputRequired;
    if c.actionName == Some("upload_receipt") {
      var fileBase64 := Get(ctx, "fileBase64", "");
      var fileName := Get(ctx, "fileName", "receipt");
      var fileType := Get(ctx, "fileType", "image/png");
      if fileBase64 == "" {
        events := events + [StatusUpdate(Completed, TextMessage(NoUploadMessage), true)];
        return;
      }
      var ocrResult := ExtractFromBase64(uc, engine, fileBase64, fileType, fileName);
      if ocrResult.Err? {
        outcome := Raised(ocrResult.error);
        return;
      }
      messages := Some(BuildExpenseForm(UploadFormData(ocrResult.value)));
    } else if c.actionName == Some("submit_expense") {
      var record := store.AddClaim(SubmitPayload(ctx), now);
      messages := Some(BuildConfirmation(record));
      finalState := Completed;
    } else if c.actionName == Some("search_expense") {
      var results := store.SearchClaims(Get(ctx, "query", ""), uc.lower);
      var screen := BuildSearchResults(results);
      messages := Some(screen);
    } else if c.textInput != "" {
      events := events + [StatusUpdate(Completed, TextMessage(GuidanceMessage), true)];
      return;
    }
    if messages.None? || messages.value == [] {
      events := events + [StatusUpdate(Completed, TextMessage(NothingMessage), true)];
      return;
    }
    events := events + [StatusUpdate(finalState, A2uiParts(messages.value), finalState == Completed)];
  }

  // ---------------------------------------------------------------------
  // Properties of a turn
  // ---------------------------------------------------------------------

  /**
   * A turn that ends normally reports exactly one status update, whose
   * `final` flag is set exactly when the task is completed; a turn whose
   * receipt reader raises reports none. Only a submit changes the store,
   * and then by one claim at the end.
   */
  lemma RespondShape(claims: seq<Dict>, issued: nat, uc: Unicode, engine: Engine, useUi: bool,
                     parts: seq<Part>, now: string)
    ensures var r := Respond(claims, issued, uc, engine, useUi, parts, now);
      && (r.outcome.Finished? <==> |r.updates| == 1)
      && |r.updates| <= 1
      && (forall e :: e in r.updates ==> e.StatusUpdate? && e.final == (e.state == Completed))
      && ((useUi && Classify(parts).actionName == Some("submit_expense")) <==> r.claims != claims)
      && (r.claims == claims || (|r.claims| == |claims| + 1 && r.claims[..|claims|] == claims))
  {
    var name := Classify(parts).actionName;
    if useUi && name == Some("submit_expense") {
      var r := Respond(claims, issued, uc, engine, useUi, parts, now);
      assert r.claims[..|claims|] == claims;
    } else if useUi && name == Some("upload_receipt") {
    } else {
    }
  }

  /** Without the A2UI extension the turn completes with a text and touches nothing. */
  lemma WithoutUi(claims: seq<Dict>, issued: nat, uc: Unicode, engine: Engine, parts: seq<Part>, now: string)
    ensures Respond(claims, issued, uc, engine, false, parts, now)
      == Reply([StatusUpdate(Completed, TextMessage(ConnectMessage), true)], Finished, claims, issued)
  {
  }

  /** An upload without file data completes with a text, without reading anything or storing. */
  lemma UploadWithoutFile(claims: seq<Dict>, issued: nat, uc: Unicode, engine: Engine,
                          parts: seq<Part>, now: string)
    requires Classify(parts).actionName == Some("upload_receipt")
    requires Get(Classify(parts).context, "fileBase64", "") == ""
    ensures Respond(claims, issued, uc, engine, true, parts, now)
      == Reply([StatusUpdate(Completed, TextMessage(NoUploadMessage), true)], Finished, claims, issued)
  {
  }

  /**
   * An upload with file data reads the receipt with the context's file
   * type (default `image/png`) and file name (default `receipt`) and, when
   * the reader succeeds, shows the draft form: the receipt name is the file
   * name, the four read fields come from the reader, category, payment
   * method and memo are empty; the task waits for input and the store is
   * unchanged.
   */
  lemma UploadShowsDraft(claims: seq<Dict>, issued: nat, uc: Unicode, engine: Engine,
                         parts: seq<Part>, now: string, r: OcrResult)
    requires Classify(parts).actionName == Some("upload_receipt")
    requires var ctx := Classify(parts).context;
      && Get(ctx, "fileBase64", "") != ""
      && ExtractionOf(uc, engine, Get(ctx, "fileBase64", ""), Get(ctx, "fileType", "image/png"),
                      Get(ctx, "fileName", "receipt")) == Ok(r)
    ensures Respond(claims, issued, uc, engine, true, parts, now)
      == Reply([StatusUpdate(InputRequired, A2uiParts(FormScreen(FormDraft(UploadFormData(r)))), false)],
               Finished, claims, issued)
    ensures FormDraft(UploadFormData(r))
      == ExpenseForm(Get(Classify(parts).context, "fileName", "receipt"), r.merchant, r.date, r.amount,
                     r.currency, "", "", "")
  {
    UploadDraftFields(r);
  }

  /** The draft dictionary of an upload reads back field by field. */
  lemma UploadDraftFields(r: OcrResult)
    ensures FormDraft(UploadFormData(r))
      == ExpenseForm(r.receiptName, r.merchant, r.date, r.amount, r.currency, "", "", "")
  {
    var d := UploadFormData(r);
    assert Keys(d) == FormKeys;
    FormKeysDistinct();
    GetUnique(d, 0, ""); GetUnique(d, 1, ""); GetUnique(d, 2, ""); GetUnique(d, 3, "");
    GetUnique(d, 4, "JPY"); GetUnique(d, 5, ""); GetUnique(d, 6, ""); GetUnique(d, 7, "");
  }

  /**
   * A submit stores exactly one new claim at the end of the store, whose
   * eight expense fields are the context's (a missing one, currency
   * included, is `""`), and completes the task with the confirmation.
   */
  lemma SubmitStoresOneClaim(claims: seq<Dict>, issued: nat, uc: Unicode, engine: Engine,
                             parts: seq<Part>, now: string, k: string)
    requires Classify(parts).actionName == Some("submit_expense")
    requires k in FormKeys
    ensures var reply := Respond(claims, issued, uc, engine, true, parts, now);
      && |reply.claims| == |claims| + 1 && reply.claims[..|claims|] == claims
      && reply.issued == issued + 1
      && Get(reply.claims[|claims|], k, "") == Get(Classify(parts).context, k, "")
      && reply.updates == [StatusUpdate(Completed, A2uiParts(BuildConfirmation(reply.claims[|claims|])), true)]
  {
    var ctx := Classify(parts).context;
    var payload := SubmitPayload(ctx);
    SubmitPayloadFields(ctx, k);
    NewRecordFields(IdFor(issued), now, payload, k, "");
  }

  /** The submit payload has the eight keys once each, with the context's values. */
  lemma SubmitPayloadFields(ctx: Dict, k: string)
    requires k in FormKeys
    ensures UniqueKeys(SubmitPayload(ctx))
    ensures HasKey(SubmitPayload(ctx), k) && Get(SubmitPayload(ctx), k, "") == Get(ctx, k, "")
  {
    var p := SubmitPayload(ctx);
    assert Keys(p) == FormKeys;
    FormKeysDistinct();
    var i :| 0 <= i < |FormKeys| && FormKeys[i] == k;
    GetUnique(p, i, "");
  }

  /**
   * A search (query defaulting to `""`) shows the claims the store finds,
   * waits for input, and leaves the store as it was.
   */
  lemma SearchLeavesStore(claims: seq<Dict>, issued: nat, uc: Unicode, engine: Engine,
                          parts: seq<Part>, now: string)
    requires Classify(parts).actionName == Some("search_expense")
    ensures var found := Found(claims, Get(Classify(parts).context, "query", ""), uc.lower);
      Respond(claims, issued, uc, engine, true, parts, now)
        == Reply([StatusUpdate(InputRequired, A2uiParts(SearchScreen(ResultForms(found))), false)],
                 Finished, claims, issued)
    ensures !HasKey(Classify(parts).context, "query") ==>
      Respond(claims, issued, uc, engine, true, parts, now).updates
        == [StatusUpdate(InputRequired, A2uiParts(SearchScreen(ResultForms(claims))), false)]
  {
  }

  /**
   * Any other action, or none, completes the task with a text: guidance
   * when the message carried text, "nothing to process" otherwise.
   */
  lemma OtherActionAnswersText(claims: seq<Dict>, issued: nat, uc: Unicode, engine: Engine,
                               parts: seq<Part>, now: string)
    requires Classify(parts).actionName !in {Some("upload_receipt"), Some("submit_expense"), Some("search_expense")}
    ensures Respond(claims, issued, uc, engine, true, parts, now)
      == Reply([StatusUpdate(Completed, TextMessage(if Classify(parts).textInput != "" then GuidanceMessage else NothingMessage), true)],
               Finished, claims, issued)
  {
  }

  /** The errors a request can be answered with. */
  datatype ServerError = UnsupportedOperation

  /** `cancel`: cancelling a task is never supported. */
  function Cancel(): (r: Result<(), ServerError>)
    ensures r.Err? && r.error == UnsupportedOperation
  {
    Err(UnsupportedOperation)
  }
}
