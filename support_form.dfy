/** The support-ticket form of the chat widget: inserting the per-user
    `subscription` select field after the email field, and the ticket payload
    built from the submitted values. */
module SupportForm {

  datatype Option<T> = None | Some(value: T)

  /** One `{ label, value }` choice of a select field (`label` is a Dafny keyword, hence `caption`). */
  datatype SelectItem = SelectItem(caption: string, value: string)

  /** How a field is rendered: its `inputType`, or the built-in
      `include_chat_session` checkbox with its default. */
  datatype FieldKind =
    | Text
    | Email
    | Textarea
    | Select(items: seq<SelectItem>)
    | IncludeChatSession(defaultValue: bool)

  /** A form field. The `include_chat_session` field sets no `isRequired`;
      `false` stands for whatever the widget defaults it to, which no rule of
      this model depends on. */
  datatype Field = Field(name: string, caption: string, isRequired: bool, kind: FieldKind)

  /** The form's own field list: name, email, the chat-history checkbox and
      the description, of which only the checkbox is not marked required. */
  function ShippedFields(): (fields: seq<Field>)
    ensures Names(fields) == ["name", "email", "include_chat_session", "description"]
    ensures forall i :: 0 <= i < |fields| ==> (fields[i].isRequired <==> fields[i].name != "include_chat_session")
  {
    [
      Field("name", "Name", true, Text),
      Field("email", "Email", true, Email),
      Field("include_chat_session", "Include chat history", false, IncludeChatSession(true)),
      Field("description", "Description", true, Textarea)
    ]
  }

  /** The required select field offering the user's subscriptions: its items
      are exactly the subscriptions given. */
  function SubscriptionField(subscriptions: seq<SelectItem>): (f: Field)
    ensures f.name == "subscription" && f.isRequired
    ensures f.kind.Select? && f.kind.items == subscriptions
  {
    Field("subscription", "Subscription", true, Select(subscriptions))
  }

  /** The names of a field list, in order. */
  function Names(fields: seq<Field>): (names: seq<string>)
    ensures |names| == |fields|
    ensures forall i :: 0 <= i < |fields| ==> names[i] == fields[i].name
  {
    if fields == [] then [] else [fields[0].name] + Names(fields[1..])
  }

  // ---------------------------------------------------------------------------
  // Field insertion

  /** `fields.findIndex(f => f.name === name)`: the first position of a field
      with that name, or -1. */
  function FindIndex(fields: seq<Field>, name: string): (i: int)
    ensures -1 <= i < |fields|
    ensures i == -1 <==> forall j :: 0 <= j < |fields| ==> fields[j].name != name
    ensures 0 <= i ==> fields[i].name == name && forall j :: 0 <= j < i ==> fields[j].name != name
  {
    if fields == [] then -1
    else if fields[0].name == name then 0
    else
      var j := FindIndex(fields[1..], name);
      if j == -1 then -1 else j + 1
  }

  /** `s.splice(k, 0, x)` for a start inside the list: `x` lands at position
      k and every element from k on moves one place to the right. */
  function Insert<T>(s: seq<T>, k: nat, x: T): (r: seq<T>)
    requires k <= |s|
    ensures |r| == |s| + 1
    ensures r[k] == x
    ensures forall j :: 0 <= j < k ==> r[j] == s[j]
    ensures forall j :: k <= j < |s| ==> r[j + 1] == s[j]
    ensures multiset(r) == multiset(s) + multiset{x}
  {
    assert s == s[..k] + s[k..];
    s[..k] + [x] + s[k..]
  }

  /** Taking the inserted element out again gives back the list inserted into:
      what lies before position k is untouched and what lay from k on follows it. */
  lemma InsertThenRemove<T>(s: seq<T>, k: nat, x: T)
    requires k <= |s|
    ensures Insert(s, k, x)[..k] == s[..k]
    ensures Insert(s, k, x)[k + 1..] == s[k..]
    ensures Insert(s, k, x)[..k] + Insert(s, k, x)[k + 1..] == s
  {
    var r := Insert(s, k, x);
    assert r == s[..k] + ([x] + s[k..]);
    assert r[..k] == s[..k];
    assert r[k + 1..] == s[k..];
    assert s == s[..k] + s[k..];
  }

  /** A position holding `name` with no `name` before it, or -1 when there is
      no such field at all, is what `findIndex` returns. */
  lemma FindIndexIsFirstMatch(fields: seq<Field>, name: string, e: int)
    requires e == -1 || (0 <= e < |fields| && fields[e].name == name)
    requires forall j :: 0 <= j < |fields| && (e == -1 || j < e) ==> fields[j].name != name
    ensures FindIndex(fields, name) == e
  {
    var i := FindIndex(fields, name);
    if e == -1 {
      assert i == -1;
    }
  }

  /** The field list of `initializeForUser`: a copy of `fields` with the
      subscription field spliced in at `findIndex(name === 'email') + 1`.
      That start is never negative and never past the end, so the clamping
      `splice` applies to out-of-range starts does not arise. The result is
      the input with exactly one field added; where it goes is stated by
      `SubscriptionFieldPlacement`. */
  function WithSubscriptionField(fields: seq<Field>, subscriptions: seq<SelectItem>): (r: seq<Field>)
    ensures |r| == |fields| + 1
    ensures multiset(r) == multiset(fields) + multiset{SubscriptionField(subscriptions)}
  {
    Insert(fields, FindIndex(fields, "email") + 1, SubscriptionField(subscriptions))
  }

  /** The subscription field goes right after the first email field, or first
      when there is no email field; every original field keeps its relative
      order and nothing else is added or lost. */
  lemma SubscriptionFieldPlacement(fields: seq<Field>, subscriptions: seq<SelectItem>, e: int)
    requires e == -1 || (0 <= e < |fields| && fields[e].name == "email")
    requires forall j :: 0 <= j < |fields| && (e == -1 || j < e) ==> fields[j].name != "email"
    ensures |WithSubscriptionField(fields, subscriptions)| == |fields| + 1
    ensures WithSubscriptionField(fields, subscriptions)[e + 1] == SubscriptionField(subscriptions)
    ensures WithSubscriptionField(fields, subscriptions)[..e + 1] == fields[..e + 1]
    ensures WithSubscriptionField(fields, subscriptions)[e + 2..] == fields[e + 1..]
  {
    FindIndexIsFirstMatch(fields, "email", e);
    InsertThenRemove(fields, e + 1, SubscriptionField(subscriptions));
  }

  /** Removing the inserted field gives back the form's list unchanged: the
      insertion works on a copy. */
  lemma SubscriptionFieldIsOnlyAddition(fields: seq<Field>, subscriptions: seq<SelectItem>)
    ensures
      var k := FindIndex(fields, "email") + 1;
      var r := WithSubscriptionField(fields, subscriptions);
      r[..k] + r[k + 1..] == fields
  {
    InsertThenRemove(fields, FindIndex(fields, "email") + 1, SubscriptionField(subscriptions));
  }

  /** With the form's own fields the subscription select is third, between
      email and the chat-history checkbox. */
  lemma ShippedFormOrder(subscriptions: seq<SelectItem>)
    ensures WithSubscriptionField(ShippedFields(), subscriptions)[2] == SubscriptionField(subscriptions)
    ensures Names(WithSubscriptionField(ShippedFields(), subscriptions))
         == ["name", "email", "subscription", "include_chat_session", "description"]
  {
    var fields := ShippedFields();
    assert fields[1].name == "email" && fields[0].name != "email";
    SubscriptionFieldPlacement(fields, subscriptions, 1);
  }

  // ---------------------------------------------------------------------------
  // Ticket payload

  /** The conversation the form was opened from; only its id is used. */
  datatype Conversation = Conversation(id: string)

  /** The submitted form values; a field the user left out is `None`. */
  datatype FormValues = FormValues(
    name: Option<string>,
    email: Option<string>,
    subscription: Option<string>,
    includeChatSession: Option<bool>,
    description: Option<string>)

  /** The body of the support-ticket request. */
  datatype TicketPayload = TicketPayload(
    conversationId: Option<string>,
    description: Option<string>,
    email: Option<string>,
    name: Option<string>,
    subscription: Option<string>)

  /** The payload object of `onSubmit`: each payload field is copied from the
      submitted value of the same name, and `conversation_id` from the
      conversation's id; `values?.x` and `conversation?.id` are undefined when
      `values` or `conversation` is missing. */
  function BuildPayload(values: Option<FormValues>, conversation: Option<Conversation>): (p: TicketPayload)
    ensures conversation.Some? ==> p.conversationId == Some(conversation.value.id)
    ensures values.Some? ==> p.description == values.value.description
    ensures values.Some? ==> p.email == values.value.email
    ensures values.Some? ==> p.name == values.value.name
    ensures values.Some? ==> p.subscription == values.value.subscription
  {
    var conversationId := if conversation.Some? then Some(conversation.value.id) else None;
    match values
    case None => TicketPayload(conversationId, None, None, None, None)
    case Some(v) => TicketPayload(conversationId, v.description, v.email, v.name, v.subscription)
  }

  /** Two submissions give the same payload exactly when they agree on the
      conversation id and on every field except `include_chat_session`, which
      is never forwarded. This states only what is dropped; which value goes
      into which payload field is `BuildPayload`'s own contract. */
  lemma PayloadForwardsAllButChatSession(v1: FormValues, v2: FormValues, c1: Conversation, c2: Conversation)
    ensures BuildPayload(Some(v1), Some(c1)) == BuildPayload(Some(v2), Some(c2))
        <==> c1.id == c2.id && v1.(includeChatSession := None) == v2.(includeChatSession := None)
  {
  }

  /** Without values or conversation every payload field is undefined. */
  lemma PayloadOfMissingInputs(values: Option<FormValues>, conversation: Option<Conversation>)
    ensures values.None? ==> BuildPayload(values, conversation) == TicketPayload(
              BuildPayload(values, conversation).conversationId, None, None, None, None)
    ensures conversation.None? <==> BuildPayload(values, conversation).conversationId.None?
  {
  }

  /** The documented example submission and the payload it produces. */
  lemma ExamplePayload()
    ensures BuildPayload(
              Some(FormValues(Some("Sarah"), Some("sarah@inkeep.com"), Some("subscription_1"), Some(true),
                              Some("Here is a description of my problem."))),
              Some(Conversation("conv_123")))
         == TicketPayload(Some("conv_123"), Some("Here is a description of my problem."),
                          Some("sarah@inkeep.com"), Some("Sarah"), Some("subscription_1"))
  {
  }
}
