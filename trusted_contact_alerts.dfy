/** The "Trusted Contact Alerts" widget: a mirror of the user's
    `trusted_contacts` rows (requested newest first), the three-row demo seed, and the
    cards with initials and index-based labels. */
module TrustedContactAlerts {
  import opened Remote

  datatype TrustedContact = TrustedContact(
    id: RowId,
    contactName: string,
    contactEmail: Option<string>,
    alertEnabled: bool,
    createdAt: Timestamp)

  /** A row of the demo payload, before the store assigns id and timestamp. */
  datatype NewTrustedContact = NewTrustedContact(userId: UserId, contactName: string, contactEmail: string)

  /** One rendered card. */
  datatype ContactCard = ContactCard(initials: string, name: string, timeLabel: string, message: string)

  /** This widget inserts demo rows and never patches. */
  type TrustedRequest = Request<NewTrustedContact, ()>

  const Table := "trusted_contacts"

  const AlertMessages: seq<string> := [
    "Stress alert: High stress level detected",
    "Sent you a calm message",
    "Requested a quick check-in call"
  ]
  const TimeLabels: seq<string> := ["Just now", "5 min ago", "15 min ago"]
  const FallbackMessage := "Connected as trusted contact"

  // ---------------------------------------------------------------------
  // Initials: split on single spaces, first character of each piece,
  // joined and upper-cased
  // ---------------------------------------------------------------------

  /** Splitting on a single space: the pieces between single spaces, empty pieces
      included, so k spaces give k + 1 pieces. */
  function Split(s: string): (pieces: seq<string>)
    ensures |pieces| >= 1
  {
    if |s| == 0 then [""]
    else if s[0] == ' ' then [""] + Split(s[1..])
    else
      var rest := Split(s[1..]);
      [[s[0]] + rest[0]] + rest[1..]
  }

  /** The first character of every piece, joined: an empty piece has no
      first character and the join renders it as nothing. */
  function FirstChars(pieces: seq<string>): string
  {
    if pieces == [] then []
    else (if pieces[0] == [] then [] else [pieces[0][0]]) + FirstChars(pieces[1..])
  }

  /** The number of non-empty pieces. */
  function NonEmptyCount(pieces: seq<string>): nat
  {
    if pieces == [] then 0
    else (if pieces[0] == [] then 0 else 1) + NonEmptyCount(pieces[1..])
  }

  /** Upper-casing one character, for the ASCII letters. */
  function Upper(c: char): char
  {
    if 'a' <= c <= 'z' then (c as int - 32) as char else c
  }

  function UpperAll(s: string): (r: string)
    ensures |r| == |s|
    ensures forall i :: 0 <= i < |s| ==> r[i] == Upper(s[i])
  {
    if s == [] then [] else [Upper(s[0])] + UpperAll(s[1..])
  }

  /** The avatar initials: the upper-cased first character of every piece
      of the name between single spaces. */
  function Initials(name: string): (initials: string)
    ensures initials == UpperAll(WordStarts(name, true))
    ensures |initials| == NonEmptyCount(Split(name))
  {
    FirstCharsOfSplit(name);
    FirstCharsCount(Split(name));
    UpperAll(FirstChars(Split(name)))
  }

  /** The characters that start a word: a non-space that is first or
      follows a space. `atStart` says whether the previous character was a
      space (or there was none). */
  function WordStarts(s: string, atStart: bool): string
  {
    if s == [] then []
    else if s[0] == ' ' then WordStarts(s[1..], true)
    else (if atStart then [s[0]] else []) + WordStarts(s[1..], false)
  }

  /** Reading the first characters of the pieces picks exactly the word starts; the
      first piece of a suffix that begins mid-word contributes nothing. */
  lemma {:induction false} FirstCharsOfSplit(s: string)
    ensures FirstChars(Split(s)) == WordStarts(s, true)
    ensures FirstChars(Split(s)[1..]) == WordStarts(s, false)
  {
    if s != [] {
      FirstCharsOfSplit(s[1..]);
      var rest := Split(s[1..]);
      if s[0] == ' ' {
        assert Split(s) == [""] + rest;
        assert Split(s)[1..] == rest;
      } else {
        var head := [s[0]] + rest[0];
        assert Split(s) == [head] + rest[1..];
        assert Split(s)[1..] == rest[1..];
        assert head != [] && head[0] == s[0];
      }
    }
  }

  lemma {:induction false} FirstCharsCount(pieces: seq<string>)
    ensures |FirstChars(pieces)| == NonEmptyCount(pieces)
  {
    if pieces != [] {
      FirstCharsCount(pieces[1..]);
    }
  }

  /** `getInitials` is total: it upper-cases the first character of every
      word, empty pieces from leading, trailing or repeated spaces add
      nothing, and there is one initial per non-empty piece. */
  lemma InitialsAreWordStarts(name: string)
    ensures Initials(name) == UpperAll(WordStarts(name, true))
    ensures |Initials(name)| == NonEmptyCount(Split(name))
  {
    FirstCharsOfSplit(name);
    FirstCharsCount(Split(name));
  }

  predicate NoSpace(w: string)
  {
    forall i :: 0 <= i < |w| ==> w[i] != ' '
  }

  /** A space ends the current word. */
  lemma WordStartsAfterSpace(s: string, atStart: bool)
    ensures WordStarts([' '] + s, atStart) == WordStarts(s, true)
  {
    assert ([' '] + s)[1..] == s;
  }

  /** A word contributes its first character only when it starts a word. */
  lemma {:induction false} WordStartsOfWord(w: string, s: string, atStart: bool)
    requires w != [] && NoSpace(w)
    ensures WordStarts(w + s, atStart) == (if atStart then [w[0]] else []) + WordStarts(s, false)
  {
    assert (w + s)[0] == w[0];
    assert (w + s)[1..] == w[1..] + s;
    if |w| > 1 {
      WordStartsOfWord(w[1..], s, false);
    }
  }

  /** Two words between runs of spaces start exactly two words. */
  lemma WordStartsOfTwoWords(lead: nat, first: string, gap: nat, second: string, trail: nat)
    requires first != [] && NoSpace(first) && second != [] && NoSpace(second)
    requires gap > 0
    ensures WordStarts(Spaces(lead) + (first + (Spaces(gap) + (second + Spaces(trail)))), true)
         == [first[0], second[0]]
  {
    var tail := Spaces(trail);
    var afterFirst := Spaces(gap) + (second + tail);
    assert WordStarts(tail, false) == [] by {
      WordStartsOfSpaces(trail, [], false);
      assert tail + [] == tail;
    }
    assert WordStarts(second + tail, true) == [second[0]] by {
      WordStartsOfWord(second, tail, true);
    }
    assert WordStarts(afterFirst, false) == [second[0]] by {
      WordStartsOfSpaces(gap, second + tail, false);
    }
    assert WordStarts(first + afterFirst, true) == [first[0], second[0]] by {
      WordStartsOfWord(first, afterFirst, true);
    }
    WordStartsOfSpaces(lead, first + afterFirst, true);
    assert WordStarts(Spaces(lead) + (first + afterFirst), true) == [first[0], second[0]];
  }

  /** The initials of a name made of two words and runs of spaces. */
  lemma InitialsOfTwoWords(name: string, lead: nat, first: string, gap: nat, second: string, trail: nat)
    requires first != [] && NoSpace(first) && second != [] && NoSpace(second)
    requires gap > 0
    requires name == Spaces(lead) + (first + (Spaces(gap) + (second + Spaces(trail))))
    ensures Initials(name) == [Upper(first[0]), Upper(second[0])]
  {
    InitialsAreWordStarts(name);
    WordStartsOfTwoWords(lead, first, gap, second, trail);
  }

  function Spaces(n: nat): (r: string)
    ensures |r| == n && forall i :: 0 <= i < n ==> r[i] == ' '
  {
    if n == 0 then [] else [' '] + Spaces(n - 1)
  }

  /** Spaces only close the current word; with at least one, the next
      character starts a word. */
  lemma {:induction false} WordStartsOfSpaces(n: nat, s: string, atStart: bool)
    ensures WordStarts(Spaces(n) + s, atStart) == WordStarts(s, atStart || n > 0)
  {
    if n > 0 {
      assert Spaces(n) + s == [' '] + (Spaces(n - 1) + s);
      calc {
        WordStarts(Spaces(n) + s, atStart);
        { WordStartsAfterSpace(Spaces(n - 1) + s, atStart); }
        WordStarts(Spaces(n - 1) + s, true);
        { WordStartsOfSpaces(n - 1, s, true); }
        WordStarts(s, true);
      }
    } else {
      assert Spaces(n) + s == s;
    }
  }

  lemma InitialsOfSarahMiller()
    ensures Initials("Sarah Miller") == "SM"
  {
    assert Spaces(0) == [] && Spaces(1) == " ";
    assert "Sarah Miller" == "Sarah" + " " + "Miller";
    InitialsOfTwoWords("Sarah Miller", 0, "Sarah", 1, "Miller", 0);
  }

  lemma InitialsOfAlex()
    ensures Initials("Alex") == "A"
  {
    InitialsAreWordStarts("Alex");
    WordStartsOfWord("Alex", [], true);
    assert "Alex" + [] == "Alex";
  }

  lemma InitialsWithExtraSpaces()
    ensures Initials("  James   Lee ") == "JL"
  {
    assert Spaces(1) == " " && Spaces(2) == "  " && Spaces(3) == "   ";
    assert "  James   Lee " == "  " + "James" + "   " + "Lee" + " ";
    InitialsOfTwoWords("  James   Lee ", 2, "James", 3, "Lee", 1);
  }

  // ---------------------------------------------------------------------
  // Labels and cards
  // ---------------------------------------------------------------------

  /** The time label of row i, with the empty string past the fixed labels. */
  function TimeLabel(i: nat): (shown: string)
    ensures i < 3 ==> shown == TimeLabels[i]
    ensures i >= 3 ==> shown == ""
  {
    if i < |TimeLabels| then TimeLabels[i] else ""
  }

  /** The message of row i: the fixed message when there is one and it is
      non-empty, the fallback message otherwise. */
  function AlertMessage(i: nat): (message: string)
    ensures i < 3 ==> message == AlertMessages[i]
    ensures i >= 3 ==> message == FallbackMessage
  {
    if i < |AlertMessages| && AlertMessages[i] != "" then AlertMessages[i] else FallbackMessage
  }

  /** The cards rendered for the mirror, one per contact in mirror order:
      the first three rows take the fixed time labels and messages, later
      rows an empty label and the fallback message. */
  function Cards(contacts: seq<TrustedContact>): (cards: seq<ContactCard>)
    ensures |cards| == |contacts|
    ensures forall i :: 0 <= i < |contacts| ==>
      && cards[i].name == contacts[i].contactName
      && cards[i].timeLabel == (if i < 3 then TimeLabels[i] else "")
      && cards[i].message == (if i < 3 then AlertMessages[i] else FallbackMessage)
  {
    seq(|contacts|, i requires 0 <= i < |contacts| =>
      ContactCard(Initials(contacts[i].contactName), contacts[i].contactName, TimeLabel(i), AlertMessage(i)))
  }

  /** A card's avatar shows the upper-cased word starts of the contact's
      name, one letter per non-empty piece of the name. */
  lemma CardInitials(contacts: seq<TrustedContact>, i: nat)
    requires i < |contacts|
    ensures Cards(contacts)[i].initials == UpperAll(WordStarts(contacts[i].contactName, true))
    ensures |Cards(contacts)[i].initials| == NonEmptyCount(Split(contacts[i].contactName))
  {
    InitialsAreWordStarts(contacts[i].contactName);
  }

  /** The "No trusted contacts yet" text is shown exactly when no card is. */
  function EmptyStateShown(contacts: seq<TrustedContact>): (shown: bool)
    ensures shown <==> Cards(contacts) == []
  {
    |contacts| == 0
  }

  // ---------------------------------------------------------------------
  // Fetch and seed
  // ---------------------------------------------------------------------

  /** The demo payload: Sarah Miller, James Lee, Alex Chen, in that order,
      each owned by the user. */
  function DemoContacts(user: UserId): (r: seq<NewTrustedContact>)
    ensures |r| == 3
    ensures forall i :: 0 <= i < |r| ==> r[i].userId == user
    ensures r[0].contactName == "Sarah Miller" && r[1].contactName == "James Lee" && r[2].contactName == "Alex Chen"
  {
    [ NewTrustedContact(user, "Sarah Miller", "sarah@example.com"),
      NewTrustedContact(user, "James Lee", "james@example.com"),
      NewTrustedContact(user, "Alex Chen", "alex@example.com") ]
  }

  /** The demo contacts show the initials SM, JL and AC. */
  lemma DemoInitials(user: UserId)
    ensures Initials(DemoContacts(user)[0].contactName) == "SM"
    ensures Initials(DemoContacts(user)[1].contactName) == "JL"
    ensures Initials(DemoContacts(user)[2].contactName) == "AC"
  {
    InitialsOfSarahMiller();
    InitialsOfJamesLee();
    InitialsOfAlexChen();
  }

  lemma InitialsOfJamesLee()
    ensures Initials("James Lee") == "JL"
  {
    assert Spaces(0) == [] && Spaces(1) == " ";
    assert "James Lee" == "James" + " " + "Lee";
    InitialsOfTwoWords("James Lee", 0, "James", 1, "Lee", 0);
  }

  lemma InitialsOfAlexChen()
    ensures Initials("Alex Chen") == "AC"
  {
    assert Spaces(0) == [] && Spaces(1) == " ";
    assert "Alex Chen" == "Alex" + " " + "Chen";
    InitialsOfTwoWords("Alex Chen", 0, "Alex", 1, "Chen", 0);
  }

  function FetchRequest(user: UserId): TrustedRequest
  {
    Select(Table, UserIs(user), NewestFirst("created_at"), None, false)
  }

  /** The widget's state: the signed-in user and the `contacts` mirror. */
  class Widget {
    const user: Option<UserId>
    var contacts: seq<TrustedContact>

    constructor (user: Option<UserId>)
      ensures this.user == user && contacts == []
    {
      this.user := user;
      contacts := [];
    }

    /** The fetch effect: with a user, select that user's rows newest first;
        adopt them when data comes back, otherwise keep the mirror. */
    method Fetch(data: Option<seq<TrustedContact>>) returns (sent: Option<TrustedRequest>)
      modifies this
      ensures sent == if user.Some? then Some(FetchRequest(user.value)) else None
      ensures contacts == if user.Some? && data.Some? then data.value else old(contacts)
    {
      sent := None;
      if user.Some? {
        sent := Some(FetchRequest(user.value));
        if data.Some? {
          contacts := data.value;
        }
      }
    }

    /** The seed effect: only with a user and an empty mirror, insert the
        three demo contacts and adopt the inserted rows if data comes back. */
    method SeedIfEmpty(inserted: Option<seq<TrustedContact>>) returns (sent: Option<TrustedRequest>)
      modifies this
      ensures sent.Some? <==> SeedGuard(user, |old(contacts)|)
      ensures sent.Some? ==> sent.value == Insert(Table, DemoContacts(user.value), false)
      ensures contacts == if sent.Some? && inserted.Some? then inserted.value else old(contacts)
    {
      sent := None;
      if SeedGuard(user, |contacts|) {
        sent := Some(Insert(Table, DemoContacts(user.value), false));
        if inserted.Some? {
          contacts := inserted.value;
        }
      }
    }

    /** The first commit: both effects run after the same render, so the
        seed reads the mirror as it was before the fetch was even sent. Both
        requests go out before either answer; the answers then arrive in
        either order, and each one with data replaces the mirror. */
    method Mount(fetched: Option<seq<TrustedContact>>, inserted: Option<seq<TrustedContact>>, fetchAnswersFirst: bool)
      returns (sent: seq<TrustedRequest>)
      modifies this
      ensures sent == (if user.Some? then [FetchRequest(user.value)] else [])
                    + (if SeedGuard(user, |old(contacts)|) then [Insert(Table, DemoContacts(user.value), false)] else [])
      ensures var f := if user.Some? then fetched else None;
              var i := if SeedGuard(user, |old(contacts)|) then inserted else None;
              contacts == if fetchAnswersFirst then Adopted(Adopted(old(contacts), f), i)
                          else Adopted(Adopted(old(contacts), i), f)
    {
      var seedDue := SeedGuard(user, |contacts|);
      var f := if user.Some? then fetched else None;
      var i := if seedDue then inserted else None;
      sent := [];
      if user.Some? {
        sent := [FetchRequest(user.value)];
      }
      if seedDue {
        sent := sent + [Insert(Table, DemoContacts(user.value), false)];
      }
      if fetchAnswersFirst {
        contacts := Adopted(Adopted(contacts, f), i);
      } else {
        contacts := Adopted(Adopted(contacts, i), f);
      }
    }
  }

  /** Every mount with a signed-in user inserts the three demo contacts, whatever
      rows the user already owns and whatever order the answers come in:
      opening the dashboard twice sends the same rows twice. */
  method EveryMountSeeds(u: UserId, existing: seq<TrustedContact>, inserted: Option<seq<TrustedContact>>, fetchAnswersFirst: bool)
    returns (first: seq<TrustedRequest>, second: seq<TrustedRequest>)
    ensures first == second == [FetchRequest(u), Insert(Table, DemoContacts(u), false)]
  {
    var w := new Widget(Some(u));
    first := w.Mount(Some(existing), inserted, fetchAnswersFirst);
    var again := new Widget(Some(u));
    second := again.Mount(Some(existing), inserted, fetchAnswersFirst);
  }
}
