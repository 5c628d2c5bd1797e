/** The "Connect Apps" widget: a mirror of the user's `app_connections` rows,
    the four-row seed, the connect/disconnect toggle, and the badge
    "<connected> / <total> connected" with its fallback provider list. */
module ConnectApps {
  import opened Remote

  /** A connection as the widget mirrors it. */
  datatype AppConnection = AppConnection(id: RowId, provider: string, isConnected: bool, features: seq<string>)

  /** A connection row as the store returns it; `features` may be null. */
  datatype ConnectionRow = ConnectionRow(id: RowId, provider: string, isConnected: bool, features: Option<seq<string>>)

  /** A row of the seed payload, before the store assigns its id. */
  datatype NewConnection = NewConnection(userId: UserId, provider: string, isConnected: bool, features: seq<string>)

  /** A provider the widget knows about, with the features it advertises. */
  datatype Provider = Provider(name: string, features: seq<string>)

  /** Requests of this widget; an update patches `is_connected`. */
  type ConnectionRequest = Request<NewConnection, bool>

  const Table := "app_connections"

  const Providers: seq<Provider> := [
    Provider("WhatsApp", ["Auto-reply", "Busy mode", "Tone analysis"]),
    Provider("Instagram", ["Auto-reply", "Tone analysis"]),
    Provider("Messages", ["Auto-reply", "Busy mode", "Tone analysis"]),
    Provider("Telegram", ["Auto-reply", "Busy mode"])
  ]

  predicate UniqueIds(conns: seq<AppConnection>)
  {
    forall i, j :: 0 <= i < j < |conns| ==> conns[i].id != conns[j].id
  }

  function NormaliseRow(row: ConnectionRow): AppConnection
  {
    AppConnection(row.id, row.provider, row.isConnected,
                  if row.features.Some? then row.features.value else [])
  }

  /** What the widget keeps of a fetched or inserted batch: every row, in
      order, with a null feature list read as the empty list. */
  function Normalise(rows: seq<ConnectionRow>): (r: seq<AppConnection>)
    ensures |r| == |rows|
    ensures forall i :: 0 <= i < |rows| ==>
      && r[i].id == rows[i].id
      && r[i].provider == rows[i].provider
      && r[i].isConnected == rows[i].isConnected
      && (rows[i].features.None? ==> r[i].features == [])
      && (rows[i].features.Some? ==> r[i].features == rows[i].features.value)
  {
    if rows == [] then [] else [NormaliseRow(rows[0])] + Normalise(rows[1..])
  }

  /** The number of mirrored rows that are connected (the badge numerator). */
  function ConnectedCount(conns: seq<AppConnection>): (n: nat)
    ensures n <= |conns|
    ensures n == 0 <==> forall i :: 0 <= i < |conns| ==> !conns[i].isConnected
    ensures n == |conns| <==> forall i :: 0 <= i < |conns| ==> conns[i].isConnected
  {
    if conns == [] then 0
    else (if conns[0].isConnected then 1 else 0) + ConnectedCount(conns[1..])
  }

  lemma {:induction false} ConnectedCountAppend(a: seq<AppConnection>, b: seq<AppConnection>)
    ensures ConnectedCount(a + b) == ConnectedCount(a) + ConnectedCount(b)
  {
    if a != [] {
      assert (a + b)[1..] == a[1..] + b;
      ConnectedCountAppend(a[1..], b);
    } else {
      assert a + b == b;
    }
  }

  function ToggleRow(c: AppConnection, id: RowId, currentState: bool): AppConnection
  {
    if c.id == id then c.(isConnected := !currentState) else c
  }

  /** The mirror after `toggleConnection(id, currentState)`: every row with
      that id gets `is_connected := !currentState`, every other row, the
      length and the order stay as they were. */
  function Toggled(conns: seq<AppConnection>, id: RowId, currentState: bool): (r: seq<AppConnection>)
    ensures |r| == |conns|
    ensures forall i :: 0 <= i < |conns| && conns[i].id == id ==>
      r[i] == conns[i].(isConnected := !currentState)
    ensures forall i :: 0 <= i < |conns| && conns[i].id != id ==> r[i] == conns[i]
  {
    if conns == [] then []
    else [ToggleRow(conns[0], id, currentState)] + Toggled(conns[1..], id, currentState)
  }

  /** Toggling back with the new state undoes a toggle. */
  lemma ToggleTwiceRestores(conns: seq<AppConnection>, id: RowId, currentState: bool)
    requires forall i :: 0 <= i < |conns| && conns[i].id == id ==> conns[i].isConnected == currentState
    ensures Toggled(Toggled(conns, id, currentState), id, !currentState) == conns
  {
    var once := Toggled(conns, id, currentState);
    var twice := Toggled(once, id, !currentState);
    assert forall i :: 0 <= i < |conns| ==> twice[i] == conns[i];
  }

  /** With unique ids, toggling a row by its mirrored state moves the
      connected count by exactly one: down for a connected row, up for a
      disconnected one. */
  lemma {:induction false} ToggleShiftsCount(conns: seq<AppConnection>, k: nat)
    requires UniqueIds(conns)
    requires k < |conns|
    ensures ConnectedCount(Toggled(conns, conns[k].id, conns[k].isConnected)) ==
            if conns[k].isConnected then ConnectedCount(conns) - 1 else ConnectedCount(conns) + 1
  {
    var id, s := conns[k].id, conns[k].isConnected;
    var t := Toggled(conns, id, s);
    assert t == [ToggleRow(conns[0], id, s)] + Toggled(conns[1..], id, s);
    assert t[1..] == Toggled(conns[1..], id, s);
    if k == 0 {
      var rest := Toggled(conns[1..], id, s);
      assert forall i :: 0 <= i < |rest| ==> rest[i] == conns[1..][i] by {
        forall i | 0 <= i < |rest| ensures rest[i] == conns[1..][i] {
          assert conns[1..][i] == conns[i + 1];
          assert conns[0].id != conns[i + 1].id;
        }
      }
      assert rest == conns[1..];
    } else {
      assert conns[1..][k - 1] == conns[k];
      ToggleShiftsCount(conns[1..], k - 1);
    }
  }

  /** The badge denominator, a falsy-zero fallback: the
      number of mirrored rows, or the four known providers while the mirror
      is empty; never zero and never below the connected count. */
  function BadgeDenominator(conns: seq<AppConnection>): (d: nat)
    ensures d > 0
    ensures ConnectedCount(conns) <= d
    ensures |conns| > 0 ==> d == |conns|
    ensures |conns| == 0 ==> d == |Providers|
  {
    if |conns| > 0 then |conns| else |Providers|
  }

  /** One placeholder card per known provider, all disconnected. */
  function Placeholders(): seq<AppConnection>
  {
    seq(|Providers|, i requires 0 <= i < |Providers| =>
      AppConnection(Providers[i].name, Providers[i].name, false, Providers[i].features))
  }

  /** The cards the widget renders: the mirror, or the provider placeholders
      when it is empty. There are as many cards as the badge's denominator
      and as many "Active" cards as its numerator. */
  function Displayed(conns: seq<AppConnection>): (r: seq<AppConnection>)
    ensures |r| == BadgeDenominator(conns)
    ensures ConnectedCount(r) == ConnectedCount(conns)
    ensures |conns| > 0 ==> r == conns
    ensures |conns| == 0 ==> forall i :: 0 <= i < |r| ==>
      && r[i].id == Providers[i].name
      && r[i].provider == Providers[i].name
      && !r[i].isConnected
      && r[i].features == Providers[i].features
  {
    if |conns| > 0 then conns else Placeholders()
  }

  /** The seed payload: one row per known provider, in the order WhatsApp,
      Instagram, Messages, Telegram, owned by the user, with the provider's
      features, and only the first two connected. No provider appears twice. */
  function DefaultConnections(user: UserId): (r: seq<NewConnection>)
    ensures |r| == |Providers| == 4
    ensures forall i :: 0 <= i < |r| ==>
      && r[i].userId == user
      && r[i].provider == Providers[i].name
      && r[i].features == Providers[i].features
      && (r[i].isConnected <==> i < 2)
    ensures forall i, j :: 0 <= i < j < |r| ==> r[i].provider != r[j].provider
  {
    [ NewConnection(user, "WhatsApp", true, ["Auto-reply", "Busy mode", "Tone analysis"]),
      NewConnection(user, "Instagram", true, ["Auto-reply", "Tone analysis"]),
      NewConnection(user, "Messages", false, ["Auto-reply", "Busy mode", "Tone analysis"]),
      NewConnection(user, "Telegram", false, ["Auto-reply", "Busy mode"]) ]
  }

  function FetchRequest(user: UserId): ConnectionRequest
  {
    Select(Table, UserIs(user), Unordered, None, false)
  }

  /** The mirror after one answer arrives: a batch with data replaces it
      (normalised), a null answer leaves it. */
  function AdoptedRows(mirror: seq<AppConnection>, data: Option<seq<ConnectionRow>>): seq<AppConnection>
  {
    if data.Some? then Normalise(data.value) else mirror
  }

  /** The widget's state: the signed-in user and the `connections` mirror. */
  class Widget {
    const user: Option<UserId>
    var connections: seq<AppConnection>

    constructor (user: Option<UserId>)
      ensures this.user == user && connections == []
    {
      this.user := user;
      connections := [];
    }

    /** The fetch effect: with a user, select that user's rows; adopt them
        (normalised) when data comes back, otherwise keep the mirror. */
    method Fetch(data: Option<seq<ConnectionRow>>) returns (sent: Option<ConnectionRequest>)
      modifies this
      ensures sent == if user.Some? then Some(FetchRequest(user.value)) else None
      ensures connections == if user.Some? && data.Some? then Normalise(data.value) else old(connections)
    {
      sent := None;
      if user.Some? {
        sent := Some(FetchRequest(user.value));
        if data.Some? {
          connections := Normalise(data.value);
        }
      }
    }

    /** The seed effect: only with a user and an empty mirror, insert the
        four defaults and adopt the inserted rows if data comes back. The
        guard reads the mirror only, not what the user already owns remotely. */
    method SeedIfEmpty(inserted: Option<seq<ConnectionRow>>) returns (sent: Option<ConnectionRequest>)
      modifies this
      ensures sent.Some? <==> SeedGuard(user, |old(connections)|)
      ensures sent.Some? ==> sent.value == Insert(Table, DefaultConnections(user.value), false)
      ensures connections == if sent.Some? && inserted.Some? then Normalise(inserted.value) else old(connections)
    {
      sent := None;
      if SeedGuard(user, |connections|) {
        sent := Some(Insert(Table, DefaultConnections(user.value), false));
        if inserted.Some? {
          connections := Normalise(inserted.value);
        }
      }
    }

    /** The first commit: both effects run after the same render, so the
        seed reads the mirror as it was before the fetch was even sent. Both
        requests go out before either answer; the answers then arrive in
        either order, and each one with data replaces the mirror. */
    method Mount(fetched: Option<seq<ConnectionRow>>, inserted: Option<seq<ConnectionRow>>, fetchAnswersFirst: bool)
      returns (sent: seq<ConnectionRequest>)
      modifies this
      ensures sent == (if user.Some? then [FetchRequest(user.value)] else [])
                    + (if SeedGuard(user, |old(connections)|) then [Insert(Table, DefaultConnections(user.value), false)] else [])
      ensures var f := if user.Some? then fetched else None;
              var i := if SeedGuard(user, |old(connections)|) then inserted else None;
              connections == if fetchAnswersFirst then AdoptedRows(AdoptedRows(old(connections), f), i)
                             else AdoptedRows(AdoptedRows(old(connections), i), f)
    {
      var seedDue := SeedGuard(user, |connections|);
      var f := if user.Some? then fetched else None;
      var i := if seedDue then inserted else None;
      sent := [];
      if user.Some? {
        sent := [FetchRequest(user.value)];
      }
      if seedDue {
        sent := sent + [Insert(Table, DefaultConnections(user.value), false)];
      }
      if fetchAnswersFirst {
        connections := AdoptedRows(AdoptedRows(connections, f), i);
      } else {
        connections := AdoptedRows(AdoptedRows(connections, i), f);
      }
    }

    /** `toggleConnection(id, currentState)`: sends the update filtered by
        row id only, and applies the toggle to the mirror whether or not the
        store acknowledged it. */
    method ToggleConnection(id: RowId, currentState: bool, acknowledged: bool) returns (sent: ConnectionRequest)
      modifies this
      ensures sent == Update(Table, IdIs(id), !currentState)
      ensures connections == Toggled(old(connections), id, currentState)
    {
      sent := Update(Table, IdIs(id), !currentState);
      connections := Toggled(connections, id, currentState);
    }
  }

  /** A property of the guard predicate only: it admits a second insert of
      the same rows, because it reads only the mirror, which a fetch without
      data and a lost insert answer leave empty. Within one mount the seed
      effect does not run twice like this, since a lost answer changes
      neither the user nor the mirror's length; `EveryMountSeeds` shows the
      repeat that does happen. */
  method SeedRepeatsAfterLostAnswer(u: UserId) returns (first: Option<ConnectionRequest>, second: Option<ConnectionRequest>)
    ensures first.Some? && first.value.Insert? && |first.value.rows| == 4
    ensures second == first
  {
    var w := new Widget(Some(u));
    var fetched := w.Fetch(None);
    first := w.SeedIfEmpty(None);
    second := w.SeedIfEmpty(None);
  }

  /** Every mount with a signed-in user inserts the four defaults, whatever
      rows the user already owns and whatever order the answers come in:
      opening the dashboard twice sends the same four rows twice. */
  method EveryMountSeeds(u: UserId, existing: seq<ConnectionRow>, inserted: Option<seq<ConnectionRow>>, fetchAnswersFirst: bool)
    returns (first: seq<ConnectionRequest>, second: seq<ConnectionRequest>)
    ensures first == second == [FetchRequest(u), Insert(Table, DefaultConnections(u), false)]
  {
    var w := new Widget(Some(u));
    first := w.Mount(Some(existing), inserted, fetchAnswersFirst);
    var again := new Widget(Some(u));
    second := again.Mount(Some(existing), inserted, fetchAnswersFirst);
  }
}
