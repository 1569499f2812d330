/** `handleWhatsAppWebhook` of src/api/webhooks/whatsapp.ts: which reply an
    incoming WhatsApp message gets, and which HTTP status the handler
    answers with.

    The replies are kept as tags with the data they carry rather than as
    texts. The user directory, the insert's outcome and whether each send
    throws (and with which message) are parameters; the sends themselves are
    recorded, in order, in the handler's `outbox`. */
module WhatsAppWebhook {
  import opened Wrappers
  import opened Text
  import opened Seqs
  import opened Domain
  import opened WhatsAppParser

  const INCOMING: string := "incoming"
  const CHAT_SUFFIX: string := "@c.us"
  const OK_STATUS: int := 200
  const ERROR_STATUS: int := 500

  /** The envelope the webhook receives. */
  datatype Envelope = Envelope(kind: string, chatId: string, textMessage: Option<string>)

  /** A user of the directory, with the phone on the account and the one in
      its metadata. */
  datatype User = User(id: string, phone: Option<string>, metadataPhone: Option<string>)

  datatype Reply =
    | NoLinkedUser
    | Added(name: string, institution: string, category: string, value: real)
    | AddFailed(message: string)
    | QueryHelp
    | Greeting

  datatype Outgoing = Outgoing(chatId: string, reply: Reply)

  /** `chatId.replace('@c.us', '')`: the first occurrence only. */
  function PhoneOf(chatId: string): (phone: string)
    ensures !Contains(chatId, CHAT_SUFFIX) ==> phone == chatId
    ensures Contains(chatId, CHAT_SUFFIX) ==> |phone| + |CHAT_SUFFIX| == |chatId|
  {
    RemoveFirst(chatId, CHAT_SUFFIX)
  }

  function PhoneMatches(phone: string): User -> bool
  {
    (u: User) => u.phone == Some(phone) || u.metadataPhone == Some(phone)
  }

  /** `users?.find(...)`: the first user whose phone, or metadata phone, is
      the number; none when the directory gave nothing. */
  function FindUser(users: Option<seq<User>>, phone: string): (u: Option<User>)
    ensures u.Some? ==> u.value.phone == Some(phone) || u.value.metadataPhone == Some(phone)
    ensures u.Some? ==>
      && users.Some?
      && exists k :: 0 <= k < |users.value| && users.value[k] == u.value &&
           forall j :: 0 <= j < k ==> users.value[j].phone != Some(phone) && users.value[j].metadataPhone != Some(phone)
    ensures u.None? ==>
      (users.None? ||
       forall i :: 0 <= i < |users.value| ==> users.value[i].phone != Some(phone) && users.value[i].metadataPhone != Some(phone))
  {
    if users.None? then None
    else
      var k := FindIndex(users.value, PhoneMatches(phone));
      if k < 0 then None else Some(users.value[k])
  }

  /** Whether the envelope is an incoming text: anything else is acknowledged
      and ignored. */
  predicate IsIncomingText(m: Envelope) {
    m.kind == INCOMING && m.textMessage.Some? && m.textMessage.value != ""
  }

  /** The replies one message gets, in order: a fixed one for a query or an
      unknown message; for an add, the not-found reply, the creation error,
      or the item's details, followed by an error reply when sending those
      details throws `firstSendError`. */
  function Replies(command: ParsedCommand, user: Option<User>, created: Result<FinancialItem, string>,
                   firstSendError: Option<string>): (r: seq<Reply>)
    ensures 1 <= |r| <= 2
    ensures |r| == 2 <==> command.action.Add? && user.Some? && created.Ok? && firstSendError.Some?
    ensures command.action.Query? ==> r == [QueryHelp]
    ensures command.action.Unknown? ==> r == [Greeting]
    ensures command.action.Add? && user.None? ==> r == [NoLinkedUser]
    ensures command.action.Add? && user.Some? && created.Err? ==> r == [AddFailed(created.error)]
    ensures command.action.Add? && user.Some? && created.Ok? ==>
      r[0] == Added(created.value.name, created.value.institution, created.value.category, created.value.value)
  {
    if command.action.Query? then [QueryHelp]
    else if command.action.Unknown? then [Greeting]
    else if user.None? then [NoLinkedUser]
    else if created.Err? then [AddFailed(created.error)]
    else
      var item := created.value;
      var details := Added(item.name, item.institution, item.category, item.value);
      if firstSendError.Some? then [details, AddFailed(firstSendError.value)] else [details]
  }

  /** The replies, each to the chat the message came from. */
  function Addressed(chatId: string, replies: seq<Reply>): (r: seq<Outgoing>)
    ensures |r| == |replies|
    ensures forall i :: 0 <= i < |r| ==> r[i] == Outgoing(chatId, replies[i])
  {
    if replies == [] then [] else Addressed(chatId, replies[..|replies| - 1]) + [Outgoing(chatId, replies[|replies| - 1])]
  }

  /** The replies to `command` sent from `chatId`, where the first send
      throws `sendError(0)`. */
  function RepliesTo(chatId: string, command: ParsedCommand, users: Option<seq<User>>, today: Day,
                     insert: Result<string, string>, sendError: nat -> Option<string>): (r: seq<Reply>)
    ensures 1 <= |r| <= 2
  {
    Replies(command, FindUser(users, PhoneOf(chatId)), CreateItemFromCommand(command, today, insert), sendError(0))
  }

  /** The answer after sending `replies`: 200 unless the last send threw. */
  function StatusAfter(replies: seq<Reply>, sendError: nat -> Option<string>): (status: int)
    requires |replies| >= 1
    ensures status == OK_STATUS || status == ERROR_STATUS
    ensures status == ERROR_STATUS <==> sendError(|replies| - 1).Some?
  {
    if sendError(|replies| - 1).None? then OK_STATUS else ERROR_STATUS
  }

  class Webhook {
    /** Every message the handler has tried to send, in order. */
    var outbox: seq<Outgoing>

    constructor()
      ensures outbox == []
    {
      outbox := [];
    }

    /** `sendWhatsAppMessage`: the message is handed over; `failure` is the
        message of the error it throws, if it does. */
    method Send(chatId: string, reply: Reply, failure: Option<string>) returns (thrown: Option<string>)
      modifies this
      ensures outbox == old(outbox) + [Outgoing(chatId, reply)]
      ensures thrown == failure
    {
      outbox := outbox + [Outgoing(chatId, reply)];
      thrown := failure;
    }

    /** The handler. `sendError(k)` is what the `k`-th send of this call
        throws. Anything other than an incoming text gets 200 and no reply.
        A query and an unknown message get one fixed reply; an add from an
        unknown number gets one not-found reply; an add whose item cannot be
        created gets one error reply carrying the error; a created item gets
        a reply with its name, institution, category and value, and when
        that send throws, an error reply with the thrown message follows.
        The answer is 200 unless the last send threw, then 500. */
    method HandleWhatsAppWebhook(m: Envelope, users: Option<seq<User>>, today: Day,
                                 insert: Result<string, string>, sendError: nat -> Option<string>)
      returns (status: int)
      modifies this
      ensures !IsIncomingText(m) ==> status == OK_STATUS && outbox == old(outbox)
      ensures IsIncomingText(m) ==>
        var replies := RepliesTo(m.chatId, ParseWhatsAppMessage(m.textMessage.value), users, today, insert, sendError);
        outbox == old(outbox) + Addressed(m.chatId, replies) && status == StatusAfter(replies, sendError)
    {
      if m.kind != INCOMING || m.textMessage.None? || m.textMessage.value == "" {
        return OK_STATUS;
      }
      var chatId := m.chatId;
      var text := m.textMessage.value;
      var command := ParseWhatsAppMessage(text);
      status := Dispatch(chatId, command, users, today, insert, sendError);
    }

    /** Everything after the parse, for a given command. */
    method Dispatch(chatId: string, command: ParsedCommand, users: Option<seq<User>>, today: Day,
                    insert: Result<string, string>, sendError: nat -> Option<string>)
      returns (status: int)
      modifies this
      ensures var replies := RepliesTo(chatId, command, users, today, insert, sendError);
        outbox == old(outbox) + Addressed(chatId, replies) && status == StatusAfter(replies, sendError)
    {
      var thrown: Option<string>;
      if command.action.Add? {
        var phoneNumber := PhoneOf(chatId);
        var user := FindUser(users, phoneNumber);
        thrown := ReplyToAdd(chatId, command, user, today, insert, sendError);
      } else if command.action.Query? {
        thrown := Send(chatId, QueryHelp, sendError(0));
      } else {
        thrown := Send(chatId, Greeting, sendError(0));
      }
      status := if thrown.None? then OK_STATUS else ERROR_STATUS;
    }

    /** The add branch, once the sender has been looked up. */
    method ReplyToAdd(chatId: string, command: ParsedCommand, user: Option<User>, today: Day,
                      insert: Result<string, string>, sendError: nat -> Option<string>)
      returns (thrown: Option<string>)
      requires command.action.Add?
      modifies this
      ensures var replies := Replies(command, user, CreateItemFromCommand(command, today, insert), sendError(0));
        outbox == old(outbox) + Addressed(chatId, replies) && thrown == sendError(|replies| - 1)
    {
      if user.None? {
        thrown := Send(chatId, NoLinkedUser, sendError(0));
        return;
      }
      var created := CreateItemFromCommand(command, today, insert);
      if created.Ok? {
        var item := created.value;
        thrown := Send(chatId, Added(item.name, item.institution, item.category, item.value), sendError(0));
        if thrown.Some? {
          thrown := Send(chatId, AddFailed(thrown.value), sendError(1));
        }
      } else {
        thrown := Send(chatId, AddFailed(created.error), sendError(0));
      }
    }
  }

  /** A created item's reply carries its name, institution, category and
      value; they are the command's, or the defaults. */
  lemma AddedReplyFields(command: ParsedCommand, today: Day, id: string)
    requires command.action.Add? && command.category.Some? && command.category.value != ""
    ensures var created := CreateItemFromCommand(command, today, Ok(id));
      && created.Ok?
      && created.value.category == command.category.value
      && created.value.name == (if command.name.Some? && command.name.value != "" then command.name.value else DEFAULT_NAME)
      && created.value.institution == (if command.institution.Some? && command.institution.value != "" then command.institution.value else DEFAULT_INSTITUTION)
      && created.value.value == (if command.value.Some? then command.value.value else 0.0)
  {
  }

  /** A failed send of a created item's details is caught: the error reply
      follows, and when that one goes through the handler still answers 200. */
  lemma CaughtSendIsOk(chatId: string, command: ParsedCommand, users: Option<seq<User>>, today: Day,
                       insert: Result<string, string>, sendError: nat -> Option<string>)
    requires command.action.Add? && FindUser(users, PhoneOf(chatId)).Some?
    requires CreateItemFromCommand(command, today, insert).Ok?
    requires sendError(0).Some? && sendError(1).None?
    ensures var replies := RepliesTo(chatId, command, users, today, insert, sendError);
      |replies| == 2 && replies[1] == AddFailed(sendError(0).value) && StatusAfter(replies, sendError) == OK_STATUS
  {
  }

  /** A number written with the WhatsApp suffix is looked up without it. */
  lemma PhoneDropsSuffix(phone: string)
    requires forall i :: 0 <= i < |phone| ==> phone[i] != '@'
    ensures PhoneOf(phone + CHAT_SUFFIX) == phone
  {
    var s := phone + CHAT_SUFFIX;
    assert s[|phone|..|phone| + |CHAT_SUFFIX|] == CHAT_SUFFIX;
    OccursContains(s, CHAT_SUFFIX, |phone|);
    var k := IndexOf(s, CHAT_SUFFIX);
    assert s[k] == CHAT_SUFFIX[0] == '@';
    assert k == |phone|;
    assert RemoveFirst(s, CHAT_SUFFIX)[..k] == phone;
  }
}
