/** The "Recent Messages" list: a mirror of the user's `messages` rows (the
    ten newest are requested), and the five-row demo seed. */
module RecentMessages {
  import opened Remote

  datatype Message = Message(
    id: RowId,
    senderName: string,
    content: string,
    isAutoReply: bool,
    isOutgoing: bool,
    sentAt: Timestamp)

  /** A row of the demo payload, before the store assigns id and timestamp. */
  datatype NewMessage = NewMessage(
    userId: UserId,
    senderName: string,
    content: string,
    isOutgoing: bool,
    isAutoReply: bool)

  /** This widget inserts demo rows and never patches. */
  type MessageRequest = Request<NewMessage, ()>

  const Table := "messages"
  /** The row limit of the fetch. */
  const FetchLimit: nat := 10

  function FetchRequest(user: UserId): MessageRequest
  {
    Select(Table, UserIs(user), NewestFirst("sent_at"), Some(FetchLimit), false)
  }

  /** The demo payload, in the order the source lists it. */
  function DemoMessages(user: UserId): (r: seq<NewMessage>)
    ensures |r| == 5
    ensures forall i :: 0 <= i < |r| ==> r[i].userId == user
    ensures forall i :: 0 <= i < |r| ==> (r[i].isOutgoing <==> r[i].isAutoReply)
    ensures forall i :: 0 <= i < |r| ==> (r[i].isOutgoing <==> r[i].senderName == "You")
    ensures forall i :: 0 <= i < |r| ==> (r[i].isOutgoing <==> i % 2 == 1)
  {
    [ NewMessage(user, "Priya Patel", "Hey, are you free to chat?", false, false),
      NewMessage(user, "You", "I'm taking some time for myself right now. I'll get back to you soon!", true, true),
      NewMessage(user, "Maria Garcia", "Can we discuss the project?", false, false),
      NewMessage(user, "You", "I'm in focus mode at the moment. Will reply when available.", true, true),
      NewMessage(user, "David Kim", "Just checking in!", false, false) ]
  }

  /** The "No messages yet" text is shown exactly when the mirror is empty. */
  function EmptyStateShown(messages: seq<Message>): (shown: bool)
    ensures shown <==> messages == []
  {
    |messages| == 0
  }

  /** The widget's state: the signed-in user and the `messages` mirror. */
  class Widget {
    const user: Option<UserId>
    var messages: seq<Message>

    constructor (user: Option<UserId>)
      ensures this.user == user && messages == []
    {
      this.user := user;
      messages := [];
    }

    /** The fetch effect: with a user, ask for the ten newest messages;
        adopt the answer when data comes back, otherwise keep the mirror. */
    method Fetch(data: Option<seq<Message>>) returns (sent: Option<MessageRequest>)
      modifies this
      ensures sent == if user.Some? then Some(FetchRequest(user.value)) else None
      ensures messages == if user.Some? && data.Some? then data.value else old(messages)
    {
      sent := None;
      if user.Some? {
        sent := Some(FetchRequest(user.value));
        if data.Some? {
          messages := data.value;
        }
      }
    }

    /** The seed effect: only with a user and an empty mirror, insert the
        five demo messages and adopt the inserted rows if data comes back. */
    method SeedIfEmpty(inserted: Option<seq<Message>>) returns (sent: Option<MessageRequest>)
      modifies this
      ensures sent.Some? <==> SeedGuard(user, |old(messages)|)
      ensures sent.Some? ==> sent.value == Insert(Table, DemoMessages(user.value), false)
      ensures messages == if sent.Some? && inserted.Some? then inserted.value else old(messages)
    {
      sent := None;
      if SeedGuard(user, |messages|) {
        sent := Some(Insert(Table, DemoMessages(user.value), false));
        if inserted.Some? {
          messages := inserted.value;
        }
      }
    }

    /** The first commit: both effects run after the same render, so the
        seed reads the mirror as it was before the fetch was even sent. Both
        requests go out before either answer; the answers then arrive in
        either order, and each one with data replaces the mirror. */
    method Mount(fetched: Option<seq<Message>>, inserted: Option<seq<Message>>, fetchAnswersFirst: bool)
      returns (sent: seq<MessageRequest>)
      modifies this
      ensures sent == (if user.Some? then [FetchRequest(user.value)] else [])
                    + (if SeedGuard(user, |old(messages)|) then [Insert(Table, DemoMessages(user.value), false)] else [])
      ensures var f := if user.Some? then fetched else None;
              var i := if SeedGuard(user, |old(messages)|) then inserted else None;
              messages == if fetchAnswersFirst then Adopted(Adopted(old(messages), f), i)
                          else Adopted(Adopted(old(messages), i), f)
    {
      var seedDue := SeedGuard(user, |messages|);
      var f := if user.Some? then fetched else None;
      var i := if seedDue then inserted else None;
      sent := [];
      if user.Some? {
        sent := [FetchRequest(user.value)];
      }
      if seedDue {
        sent := sent + [Insert(Table, DemoMessages(user.value), false)];
      }
      if fetchAnswersFirst {
        messages := Adopted(Adopted(messages, f), i);
      } else {
        messages := Adopted(Adopted(messages, i), f);
      }
    }
  }

  /** Every mount with a signed-in user inserts the five demo messages, whatever
      rows the user already owns and whatever order the answers come in:
      opening the dashboard twice sends the same rows twice. */
  method EveryMountSeeds(u: UserId, existing: seq<Message>, inserted: Option<seq<Message>>, fetchAnswersFirst: bool)
    returns (first: seq<MessageRequest>, second: seq<MessageRequest>)
    ensures first == second == [FetchRequest(u), Insert(Table, DemoMessages(u), false)]
  {
    var w := new Widget(Some(u));
    first := w.Mount(Some(existing), inserted, fetchAnswersFirst);
    var again := new Widget(Some(u));
    second := again.Mount(Some(existing), inserted, fetchAnswersFirst);
  }
}
