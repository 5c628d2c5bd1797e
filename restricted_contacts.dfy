/** The "Restricted Contacts" widget: a mirror of the user's
    `restricted_contacts` rows, the name input with its Add button, and the
    per-row remove button. */
module RestrictedContacts {
  import opened Remote

  datatype RestrictedContact = RestrictedContact(id: RowId, contactName: string)

  /** The row sent by `addContact`, before the store assigns its id. */
  datatype NewRestrictedContact = NewRestrictedContact(userId: UserId, contactName: string)

  /** The answer to the single-row insert: the row and the error; `error` holds
      the error's message. */
  datatype InsertResponse = InsertResponse(data: Option<RestrictedContact>, error: Option<string>)

  /** A toast raised by the widget. */
  datatype Toast = Toast(title: string, description: string, destructive: bool)

  /** This widget inserts one row at a time and never patches. */
  type ContactRequest = Request<NewRestrictedContact, ()>

  const Table := "restricted_contacts"

  // ---------------------------------------------------------------------
  // String.prototype.trim
  // ---------------------------------------------------------------------

  /** The characters `trim` removes: ECMAScript white space (tab, vertical
      tab, form feed, space, no-break space, byte order mark and the
      Unicode space separators) and line terminators. */
  predicate IsWhitespace(c: char)
  {
    || c == '\t' || c == '\n' || c == '\U{B}' || c == '\U{C}' || c == '\r' || c == ' '
    || c == '\U{A0}' || c == '\U{1680}'
    || ('\U{2000}' <= c <= '\U{200A}')
    || c == '\U{2028}' || c == '\U{2029}' || c == '\U{202F}' || c == '\U{205F}'
    || c == '\U{3000}' || c == '\U{FEFF}'
  }

  predicate AllWhitespace(s: string)
  {
    forall i :: 0 <= i < |s| ==> IsWhitespace(s[i])
  }

  /** Drops leading white space: the result is a suffix, what was dropped
      is white space, and the result does not start with white space. */
  function TrimStart(s: string): (r: string)
    ensures |r| <= |s| && r == s[|s| - |r|..]
    ensures AllWhitespace(s[..|s| - |r|])
    ensures r != [] ==> !IsWhitespace(r[0])
  {
    if s != [] && IsWhitespace(s[0]) then TrimStart(s[1..]) else s
  }

  /** Drops trailing white space: the result is a prefix, what was dropped
      is white space, and the result does not end with white space. */
  function TrimEnd(s: string): (r: string)
    ensures |r| <= |s| && r == s[..|r|]
    ensures AllWhitespace(s[|r|..])
    ensures r != [] ==> !IsWhitespace(r[|r| - 1])
  {
    if s != [] && IsWhitespace(s[|s| - 1]) then TrimEnd(s[..|s| - 1]) else s
  }

  /** Drops white space at both ends: the result is the infix of the input
      that starts after the leading white space, what lies before and after
      it is white space, and it neither starts nor ends with white space. */
  function Trim(s: string): (r: string)
    ensures |r| <= |s|
    ensures var a := |s| - |TrimStart(s)|; a + |r| <= |s| && r == s[a..a + |r|]
    ensures var a := |s| - |TrimStart(s)|; AllWhitespace(s[..a]) && AllWhitespace(s[a + |r|..])
    ensures r != [] ==> !IsWhitespace(r[0]) && !IsWhitespace(r[|r| - 1])
  {
    var t := TrimStart(s);
    var r := TrimEnd(t);
    assert s[|s| - |t| + |r|..] == t[|r|..];
    r
  }

  /** A name counts as blank exactly when it is made only of white space
      (the empty name included). */
  lemma TrimEmptyIff(s: string)
    ensures Trim(s) == [] <==> AllWhitespace(s)
  {
    var t := TrimStart(s);
    assert t != [] ==> t[0] == s[|s| - |t|];
    if Trim(s) == [] {
      assert t[0..] == t;
      assert t == [];
      assert s[..|s|] == s;
    }
  }

  /** Trimming twice trims nothing more. */
  lemma TrimIdempotent(s: string)
    ensures Trim(Trim(s)) == Trim(s)
  {
    var r := Trim(s);
    if r != [] {
      assert TrimStart(r) == r;
      assert TrimEnd(r) == r;
    }
  }

  // ---------------------------------------------------------------------
  // Removal
  // ---------------------------------------------------------------------

  /** The mirror after removing an id: every row with that id goes,
      every other row stays, and a list without the id is left as it is. */
  function Removed(contacts: seq<RestrictedContact>, id: RowId): (r: seq<RestrictedContact>)
    ensures |r| <= |contacts|
    ensures forall i :: 0 <= i < |r| ==> r[i].id != id
    ensures forall c :: c in r <==> c in contacts && c.id != id
    ensures (forall i :: 0 <= i < |contacts| ==> contacts[i].id != id) ==> r == contacts
  {
    if contacts == [] then []
    else (if contacts[0].id == id then [] else [contacts[0]]) + Removed(contacts[1..], id)
  }

  /** Removal works piecewise, so the survivors keep their relative order. */
  lemma {:induction false} RemovedAppend(a: seq<RestrictedContact>, b: seq<RestrictedContact>, id: RowId)
    ensures Removed(a + b, id) == Removed(a, id) + Removed(b, id)
  {
    if a == [] {
      assert a + b == b;
    } else {
      assert (a + b)[0] == a[0];
      assert (a + b)[1..] == a[1..] + b;
      RemovedAppend(a[1..], b, id);
    }
  }

  /** Removing, by its id, a row that was just appended under a fresh id
      gives back the list as it was before the append. */
  lemma AddThenRemove(contacts: seq<RestrictedContact>, added: RestrictedContact)
    requires forall i :: 0 <= i < |contacts| ==> contacts[i].id != added.id
    ensures Removed(contacts + [added], added.id) == contacts
  {
    RemovedAppend(contacts, [added], added.id);
    assert Removed([added], added.id) == [];
  }

  function FetchRequest(user: UserId): ContactRequest
  {
    Select(Table, UserIs(user), Unordered, None, false)
  }

  function ErrorToast(message: string): Toast
  {
    Toast("Error", message, true)
  }

  /** The widget's state: the signed-in user, the `contacts` mirror, the
      text in the name input and whether the input is shown. */
  class Widget {
    const user: Option<UserId>
    var contacts: seq<RestrictedContact>
    var newName: string
    var showInput: bool

    constructor (user: Option<UserId>)
      ensures this.user == user && contacts == [] && newName == "" && !showInput
    {
      this.user := user;
      contacts := [];
      newName := "";
      showInput := false;
    }

    /** The fetch effect: with a user, select that user's rows; adopt them
        when data comes back, otherwise keep the mirror. */
    method Fetch(data: Option<seq<RestrictedContact>>) returns (sent: Option<ContactRequest>)
      modifies this
      ensures sent == if user.Some? then Some(FetchRequest(user.value)) else None
      ensures contacts == if user.Some? && data.Some? then data.value else old(contacts)
      ensures newName == old(newName) && showInput == old(showInput)
    {
      sent := None;
      if user.Some? {
        sent := Some(FetchRequest(user.value));
        if data.Some? {
          contacts := data.value;
        }
      }
    }

    /** The Add button next to the title shows or hides the input. */
    method ToggleInput()
      modifies this
      ensures showInput == !old(showInput)
      ensures contacts == old(contacts) && newName == old(newName)
    {
      showInput := !showInput;
    }

    /** Typing in the input. */
    method EditName(text: string)
      modifies this
      ensures newName == text
      ensures contacts == old(contacts) && showInput == old(showInput)
    {
      newName := text;
    }

    /** `addContact`: nothing happens without a user or with a name that
        trims to empty. Otherwise the trimmed name is inserted; on an error
        a toast is raised and the state is left alone; on success the
        returned row is appended, the input is cleared and hidden. */
    method AddContact(response: InsertResponse) returns (sent: Option<ContactRequest>, toast: Option<Toast>)
      modifies this
      ensures sent.Some? <==> user.Some? && Trim(old(newName)) != ""
      ensures sent.Some? ==>
        sent.value == Insert(Table, [NewRestrictedContact(user.value, Trim(old(newName)))], true)
      ensures toast == if sent.Some? && response.error.Some? then Some(ErrorToast(response.error.value)) else None
      ensures sent.None? || response.error.Some? ==>
        contacts == old(contacts) && newName == old(newName) && showInput == old(showInput)
      ensures sent.Some? && response.error.None? ==>
        && contacts == old(contacts) + (if response.data.Some? then [response.data.value] else [])
        && newName == ""
        && !showInput
    {
      sent, toast := None, None;
      if user.None? || Trim(newName) == "" {
        return;
      }
      sent := Some(Insert(Table, [NewRestrictedContact(user.value, Trim(newName))], true));
      if response.error.Some? {
        toast := Some(ErrorToast(response.error.value));
        return;
      }
      if response.data.Some? {
        contacts := contacts + [response.data.value];
      }
      newName := "";
      showInput := false;
    }

    /** `removeContact(id)`: sends the delete filtered by row id only, and
        drops the row from the mirror whether or not the store acknowledged
        it. */
    method RemoveContact(id: RowId, acknowledged: bool) returns (sent: ContactRequest)
      modifies this
      ensures sent == Delete(Table, IdIs(id))
      ensures contacts == Removed(old(contacts), id)
      ensures newName == old(newName) && showInput == old(showInput)
    {
      sent := Delete(Table, IdIs(id));
      contacts := Removed(contacts, id);
    }
  }
}
