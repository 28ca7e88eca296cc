/**
 * The A2UI v0.8 server-to-client messages the expense agent and its client
 * emit (the version the client announces in its `X-A2A-Extensions` header),
 * restricted to the component kinds they use, and the structural rules a
 * renderer relies on: one screen is `beginRendering`, `surfaceUpdate`,
 * `dataModelUpdate` for one surface; the declared root is a component of the
 * update; every child a component refers to is defined there.
 */
module A2ui {

  import opened Base

  /** A bound value: `{"literalString": s}` or `{"path": p}`. */
  datatype BoundValue = Literal(s: string) | Path(p: string)

  /** One `{"key": k, "value": v}` of a button action's context. */
  datatype ContextEntry = ContextEntry(key: string, value: BoundValue)

  /** An empty `context` stands for an action written without one. */
  datatype Action = Action(name: string, context: seq<ContextEntry>)

  datatype Children =
    | ExplicitList(ids: seq<string>)
    | Template(dataBinding: string, componentId: string)

  /**
   * The component kinds used by the three screens. `usageHint` is
   * `None` where the source writes no such key; `primary` is false
   * where the source writes no `primary` key.
   */
  datatype Widget =
    | Column(children: Children)
    | List(direction: string, children: Children)
    | Card(child: string)
    | Text(text: BoundValue, usageHint: Option<string>)
    | TextField(labelText: BoundValue, text: BoundValue, textFieldType: string)
    | Button(child: string, primary: bool, action: Action)

  datatype Component = Component(id: string, widget: Widget)

  /** An entry of a data-model update: `valueString` or a nested `valueMap`. */
  datatype DataEntry =
    | ValueString(key: string, str: string)
    | ValueMap(key: string, entries: seq<DataEntry>)

  datatype Styles = Styles(primaryColor: string, font: string)

  datatype Message =
    | BeginRendering(surfaceId: string, root: string, styles: Styles)
    | SurfaceUpdate(surfaceId: string, components: seq<Component>)
    | DataModelUpdate(surfaceId: string, path: string, contents: seq<DataEntry>)

  /** The styles every screen of the expense application declares. */
  const AppStyles := Styles("#2F5AFF", "Roboto")

  /** The ids a component refers to: explicit children, a template, a single child. */
  function ChildRefs(w: Widget): seq<string>
  {
    match w
    case Column(ch) => ChildListRefs(ch)
    case List(_, ch) => ChildListRefs(ch)
    case Card(c) => [c]
    case Text(_, _) => []
    case TextField(_, _, _) => []
    case Button(c, _, _) => [c]
  }

  function ChildListRefs(ch: Children): seq<string>
  {
    match ch
    case ExplicitList(ids) => ids
    case Template(_, id) => [id]
  }

  function Ids(cs: seq<Component>): (ids: seq<string>)
    ensures |ids| == |cs|
    ensures forall i :: 0 <= i < |cs| ==> ids[i] == cs[i].id
  {
    seq(|cs|, i requires 0 <= i < |cs| => cs[i].id)
  }

  /** No two components share an id. */
  predicate DistinctIds(cs: seq<Component>)
  {
    forall i, j :: 0 <= i < j < |cs| ==> cs[i].id != cs[j].id
  }

  /** Components whose id list has no repetition have distinct ids. */
  lemma DistinctIdList(cs: seq<Component>, ids: seq<string>)
    requires Ids(cs) == ids
    requires forall i, j :: 0 <= i < j < |ids| ==> ids[i] != ids[j]
    ensures DistinctIds(cs)
  {
    forall i, j | 0 <= i < j < |cs|
      ensures cs[i].id != cs[j].id
    {
      assert cs[i].id == ids[i] && cs[j].id == ids[j];
    }
  }

  /** Every id any component refers to is the id of a component of the same update. */
  predicate RefsDefined(cs: seq<Component>)
  {
    forall i :: 0 <= i < |cs| ==> forall r :: r in ChildRefs(cs[i].widget) ==> r in Ids(cs)
  }

  /** The component with the given id, if the update defines one. */
  function Find(cs: seq<Component>, id: string): (r: Option<Component>)
    ensures r.Some? ==> r.value in cs && r.value.id == id
    ensures r.None? <==> id !in Ids(cs)
  {
    if cs == [] then None
    else if cs[0].id == id then Some(cs[0])
    else (assert Ids(cs) == [cs[0].id] + Ids(cs[1..]); Find(cs[1..], id))
  }

  /** In an update whose ids are distinct, looking up a component's id finds that component. */
  lemma {:induction false} FindDistinct(cs: seq<Component>, i: nat)
    requires i < |cs| && DistinctIds(cs)
    ensures Find(cs, cs[i].id) == Some(cs[i])
  {
    if i > 0 {
      assert cs[0].id != cs[i].id;
      assert DistinctIds(cs[1..]) by {
        forall a, b | 0 <= a < b < |cs[1..]| ensures cs[1..][a].id != cs[1..][b].id {
          assert cs[a + 1].id != cs[b + 1].id;
        }
      }
      FindDistinct(cs[1..], i - 1);
    }
  }

  /** The action of the button with the given id, if there is such a button. */
  function ActionOf(cs: seq<Component>, id: string): Option<Action>
  {
    match Find(cs, id)
    case Some(Component(_, Button(_, _, a))) => Some(a)
    case _ => None
  }

  /**
   * The keys of a data-model update, in order. A `DataEntry` is a value
   * string or a nested map, unlike the string-valued `Dicts.Entry` of the
   * agent's dictionaries, so the two key projections are separate.
   */
  function DataKeys(contents: seq<DataEntry>): (ks: seq<string>)
    ensures |ks| == |contents|
    ensures forall i :: 0 <= i < |contents| ==> ks[i] == contents[i].key
  {
    seq(|contents|, i requires 0 <= i < |contents| => contents[i].key)
  }

  /**
   * One screen: the three messages in protocol order, all for one surface,
   * whose declared root and every referenced child are defined, once each,
   * in the surface update, and whose data model is written at the root path.
   */
  predicate WellFormedScreen(msgs: seq<Message>)
  {
    && |msgs| == 3
    && msgs[0].BeginRendering? && msgs[1].SurfaceUpdate? && msgs[2].DataModelUpdate?
    && msgs[1].surfaceId == msgs[0].surfaceId
    && msgs[2].surfaceId == msgs[0].surfaceId
    && msgs[2].path == "/"
    && msgs[0].root in Ids(msgs[1].components)
    && DistinctIds(msgs[1].components)
    && RefsDefined(msgs[1].components)
  }

  /**
   * An action whose context sends back exactly the data-model entries, in
   * order, each bound to the path named like its key, so that what the user
   * edited is what the action carries.
   */
  predicate BindsDataModel(a: Action, contents: seq<DataEntry>)
  {
    && |a.context| == |contents|
    && forall i :: 0 <= i < |contents| ==>
         a.context[i].key == contents[i].key && a.context[i].value == Path(contents[i].key)
  }
}
