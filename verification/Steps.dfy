/** What each message does to the whole workbench: which connection and which tab are in front
    afterwards, what a new tab is on, and what everything else is. */
module DeskSteps {
  import opened Options
  import opened Strings
  import opened Desks
  import opened DeskRuns

  // ---------------------------------------------------------------------------------------
  // The parts
  // ---------------------------------------------------------------------------------------

  /** There is something in a tab when a statement returned or is awaited in it, or when something
      other than white space is written in it. */
  lemma HoldsIs(tab: Sheet)
    ensures tab.Holds() <==>
            || tab.results.Some? || tab.inflight
            || exists i :: 0 <= i < |tab.statement| && tab.statement[i] !in WHITE_SPACE
  {
    var text := tab.statement;
    TrimEmpty(text, WHITE_SPACE);
    assert Only(text, WHITE_SPACE) <==> !exists i :: 0 <= i < |text| && text[i] !in WHITE_SPACE;
  }

  /** The connection at a place is in front, and nothing else changed. */
  predicate Fronts(d: Desk, at: int, d': Desk) {
    d' == d.(linked := at)
  }

  /** Going to a tab's connection puts the first that has its id in front; when none has it, the tab
      in front is put on the connection that is in front. */
  lemma ThroughIs(d: Desk, key: int)
    requires d.Sound() && (forall i, j :: 0 <= i < j < |d.links| ==> d.links[i].id != d.links[j].id)
    ensures forall at :: 0 <= at < |d.links| && d.links[at].id == key ==> Fronts(d, at, d.Through(key))
    ensures (forall at :: 0 <= at < |d.links| ==> d.links[at].id != key) ==>
              d.Through(key) == d.(tabs := d.tabs[d.front := d.tabs[d.front].(on := d.links[d.linked].id)])
  {}

  /** The front tab of a workbench at a place among its tabs, and the connection it is on in front. */
  predicate Shows(d: Desk, tabs: seq<Sheet>, front: int, d': Desk) {
    && 0 <= front < |tabs| && 0 <= d'.linked < |d.links|
    && d' == d.(tabs := tabs, front := front, linked := d'.linked) && d.links[d'.linked].id == tabs[front].on
  }

  lemma ShowsThrough(d: Desk, tabs: seq<Sheet>, front: int)
    requires d.Sound() && 0 <= front < |tabs| && Holding(d.links, tabs[front].on)
    ensures Shows(d, tabs, front, d.(tabs := tabs, front := front).Through(tabs[front].on))
  {}

  // ---------------------------------------------------------------------------------------
  // Tabs
  // ---------------------------------------------------------------------------------------

  /** A new tab is the last, in front, on the connection in front, with its statement and nothing more. */
  lemma NewTabIs(w: World, statement: string)
    requires w.Ok()
    ensures
      var d, d' := w.desk, Next(w, NewTab(statement)).desk;
      d' == d.(tabs := d.tabs + [Sheet(d.links[d.linked].id, 0, false, statement, None)], front := |d.tabs|)
  {}

  /** Closing the front tab brings the next one to the front, or the one before when it was the last,
      with its connection; the only tab is replaced by an empty one on the connection in front. */
  lemma CloseFrontIs(w: World)
    requires w.Ok()
    ensures
      var d, d' := w.desk, Next(w, CloseFront).desk;
      if |d.tabs| == 1 then d' == d.(tabs := [Sheet(d.links[d.linked].id, 0, false, "", None)], front := 0)
      else
        Shows(d, d.tabs[..d.front] + d.tabs[d.front + 1..], if d.front + 1 < |d.tabs| then d.front else d.front - 1, d')
  {
    var d := w.desk;
    if |d.tabs| > 1 {
      var kept := d.tabs[..d.front] + d.tabs[d.front + 1..];
      var front := if d.front + 1 < |d.tabs| then d.front else d.front - 1;
      assert Holding(d.links, kept[front].on);
      ShowsThrough(d, kept, front);
    }
  }

  /** Going to a tab puts it and its connection in front; there is nowhere else to go. */
  lemma GoToIs(w: World, index: int)
    requires w.Ok()
    ensures
      var d, d' := w.desk, Next(w, GoTo(index)).desk;
      if 0 <= index < |d.tabs| then Shows(d, d.tabs, index, d') else d' == d
  {
    if 0 <= index < |w.desk.tabs| {
      ShowsThrough(w.desk, w.desk.tabs, index);
    }
  }

  lemma MultipleInside(n: int, k: int)
    requires n > 0 && -n < n * k < n
    ensures k == 0
  {}

  lemma RestIs(a: int, n: int, q: int, r: int)
    requires n > 0 && a == n * q + r && 0 <= r < n
    ensures a % n == r
  {
    assert a == n * (a / n) + a % n;
    assert n * (a / n - q) == n * (a / n) - n * q;
    MultipleInside(n, a / n - q);
  }

  /** Where a walk of any length leads. */
  lemma RemainderOf(place: int, n: int)
    requires n > 0
    ensures -n <= place || place % n == 0 ==> Remainder(place + n, n) == place % n
    ensures place < -n && place % n != 0 ==> !(0 <= Remainder(place + n, n) < n)
  {
    var q, r := place / n, place % n;
    assert place == n * q + r;
    assert n * (q + 1) == n * q + n && n * (-q - 1) == -(n * q) - n && n * (-q - 2) == -(n * q) - 2 * n;
    RestIs(place + n, n, q + 1, r);
    if r == 0 {
      RestIs(-place - n, n, -q - 1, 0);
    } else {
      RestIs(-place - n, n, -q - 2, n - r);
    }
  }

  lemma OneAlong(front: int, n: int)
    requires 0 <= front < n
    ensures (front + 1) % n == if front == n - 1 then 0 else front + 1
    ensures (front - 1) % n == if front == 0 then n - 1 else front - 1
  {
    if front == n - 1 {
      RestIs(front + 1, n, 1, 0);
    } else {
      RestIs(front + 1, n, 0, front + 1);
    }
    if front == 0 {
      RestIs(front - 1, n, -1, n - 1);
    } else {
      RestIs(front - 1, n, 0, front - 1);
    }
  }

  /** Walking goes round the tabs: past the last comes the first, and before the first the last. A
      walk further back than all the tabs goes nowhere, unless it is a whole number of times round
      from the first. */
  lemma WalkIs(w: World, step: int)
    requires w.Ok()
    ensures
      var d, d', n := w.desk, Next(w, Walk(step)).desk, |w.desk.tabs|;
      var to := (d.front + step) % n;
      && (n >= 2 && (-n <= d.front + step || to == 0) ==> Shows(d, d.tabs, to, d'))
      && (n < 2 || (d.front + step < -n && to != 0) ==> d' == d)
      && (n >= 2 && step == 1 ==> to == if d.front == n - 1 then 0 else d.front + 1)
      && (n >= 2 && step == -1 ==> to == if d.front == 0 then n - 1 else d.front - 1)
  {
    assert w.desk.Sound();
    var d, n := w.desk, |w.desk.tabs|;
    var to := Remainder(d.front + step + n, n);
    WalkGoes(w, step, to);
    hide *;
    RemainderOf(d.front + step, n);
    OneAlong(d.front, n);
    Inside(d.front + step, n);
  }

  lemma WalkGoes(w: World, step: int, to: int)
    requires w.Ok() && to == Remainder(w.desk.front + step + |w.desk.tabs|, |w.desk.tabs|)
    ensures
      var d, d' := w.desk, Next(w, Walk(step)).desk;
      && (|d.tabs| >= 2 && 0 <= to < |d.tabs| ==> Shows(d, d.tabs, to, d'))
      && (|d.tabs| < 2 || !(0 <= to < |d.tabs|) ==> d' == d)
  {
    GoToIs(w, to);
    hide Remainder, Desk.OnSheet, Shows, World.Ok;
  }

  lemma Inside(a: int, n: int)
    requires n > 0
    ensures 0 <= a % n < n
  {}

  /** Typing changes the statement of the front tab and nothing else. */
  lemma TypeIs(w: World, text: string)
    requires w.Ok()
    ensures
      var d := w.desk;
      var was := d.tabs[d.front];
      Next(w, Type(text)) ==
      w.(desk := d.(tabs := d.tabs[d.front := Sheet(was.on, was.token, was.inflight, text, was.results)]))
  {}

  /** Running gives the front tab the next number, which is then awaited, and changes nothing else. */
  lemma RunIs(w: World)
    requires w.Ok()
    ensures
      var d := w.desk;
      var was := d.tabs[d.front];
      var now := Sheet(was.on, d.runs + 1, true, was.statement, was.results);
      Next(w, Run) == World(d.(tabs := d.tabs[d.front := now], runs := d.runs + 1), w.waiting + {d.runs + 1})
  {}

  // ---------------------------------------------------------------------------------------
  // Connections
  // ---------------------------------------------------------------------------------------

  /** The front tab is put on a connection when it holds nothing; otherwise it stays as it is, and an
      empty one on that connection is opened after the others. */
  predicate Aimed(d: Desk, on: int, tabs: seq<Sheet>, front: int)
    requires d.Sound()
  {
    var was := d.tabs[d.front];
    if was.results.Some? || was.inflight || exists i :: 0 <= i < |was.statement| && was.statement[i] !in WHITE_SPACE
    then tabs == d.tabs + [Sheet(on, 0, false, "", None)] && front == |d.tabs|
    else tabs == d.tabs[d.front := Sheet(on, was.token, was.inflight, was.statement, was.results)] && front == d.front
  }

  lemma AimIs(d: Desk, at: int)
    requires d.Sound() && 0 <= at < |d.links|
    requires forall i, j :: 0 <= i < j < |d.links| ==> d.links[i].id != d.links[j].id
    ensures
      var d' := d.Aim(d.links[at].id);
      Aimed(d, d.links[at].id, d'.tabs, d'.front) && d' == d.(tabs := d'.tabs, front := d'.front, linked := at)
  {
    hide Desk.Through;
    var on := d.links[at].id;
    HoldsIs(d.tabs[d.front]);
    if d.tabs[d.front].Holds() {
      ThroughIs(d.(tabs := d.tabs + [NewSheet(on)], front := |d.tabs|), on);
    } else {
      ThroughIs(d.(tabs := d.tabs[d.front := d.tabs[d.front].(on := on)]), on);
    }
  }

  /** Going to an open connection puts it in front, with a tab on it, and leaves the connections
      themselves as they were: nothing happens when it is in front already, and otherwise the front tab
      moves there when it holds nothing, and an empty one is opened there when it does. */
  lemma ReachIs(w: World, at: int)
    requires w.Ok()
    ensures
      var d, d' := w.desk, Next(w, Reach(at)).desk;
      && (at < 0 || |d.links| <= at || at == d.linked ==> d' == d)
      && (0 <= at < |d.links| ==>
            && d'.links == d.links && d'.linked == at && d'.tabs[d'.front].on == d.links[at].id
            && d' == d.(tabs := d'.tabs, front := d'.front, linked := at))
      && (0 <= at < |d.links| && at != d.linked ==> Aimed(d, d.links[at].id, d'.tabs, d'.front))
  {
    var d := w.desk;
    if 0 <= at < |d.links| {
      AimIs(d, at);
      hide Desk.Aim;
      assert at != d.linked ==> d.links[at].id != d.links[d.linked].id;
    }
  }

  /** A connection that failed to open stops the one in front from loading, and that is all. */
  lemma TroubleIs(w: World)
    requires w.Ok()
    ensures
      var d := w.desk;
      Next(w, Trouble) == w.(desk := d.(links := d.links[d.linked := Idle(d.links[d.linked])]))
  {}

  /** The same connection, loading nothing. */
  function Idle(open: Link): Link {
    var was := open.contents;
    Link(open.id, open.number, open.connection,
         Contents(was.findings, was.tables, was.indexes, was.failure, was.failing, false, was.read, was.talk))
  }

  /** A connection that opened is the last, in front and loading, under an id no other had; the one that
      was in front loads no longer; and a tab is aimed at it. */
  lemma SwitchIs(w: World, connection: Connection, number: nat)
    requires w.Ok()
    ensures
      var d, d' := w.desk, Next(w, Switch(connection, number)).desk;
      var added := Link(d.minted + 1, number, connection, Contents([], [], [], "", None, true, false, []));
      && Aimed(d, d.minted + 1, d'.tabs, d'.front)
      && d' == Desk(d.links[d.linked := Idle(d.links[d.linked])] + [added], |d.links|, d'.tabs, d'.front,
                    d.minted + 1, d.runs)
  {
    var d := w.desk;
    var before, added := d.Troubled(), Link(d.minted + 1, number, connection, UNREAD);
    var fronted := before.(links := before.links + [added], linked := |before.links|, minted := d.minted + 1);
    assert fronted.Sound() && fronted.tabs == d.tabs && fronted.front == d.front;
    assert forall i :: 0 <= i < |d.links| ==> before.links[i].id == d.links[i].id <= d.minted;
    AimIs(fronted, |before.links|);
    hide Desk.Aim, World.Ok, Aimed;
  }

  /** One open connection has a number on a profile and a database; a profile is known by its id, or by
      its name when it has none. */
  predicate Numbered(open: Link, connection: Connection, number: nat) {
    && open.number == number && open.connection.database == connection.database
    && (if open.connection.id != "" then open.connection.id else open.connection.name) ==
       if connection.id != "" then connection.id else connection.name
  }

  predicate NumberOf(links: seq<Link>, connection: Connection, number: nat) {
    exists i :: 0 <= i < |links| && Numbered(links[i], connection, number)
  }

  lemma TakenIs(links: seq<Link>, connection: Connection, number: nat)
    ensures Taken(links, connection, number) <==> NumberOf(links, connection, number)
  {
    assert forall i :: 0 <= i < |links| ==>
        (Numbered(links[i], connection, number) <==>
         links[i].StandsWith(connection) && links[i].number == number);
  }

  /** A connection gets the least number, from one on, that no open connection has on its profile and
      its database. */
  lemma NumberIs(w: World, connection: Connection, number: nat)
    ensures Enabled(w, Switch(connection, number)) <==>
            && number >= 1 && !NumberOf(w.desk.links, connection, number)
            && forall n :: 1 <= n < number ==> NumberOf(w.desk.links, connection, n)
  {
    hide Taken, NumberOf;
    forall n: nat
      ensures Taken(w.desk.links, connection, n) <==> NumberOf(w.desk.links, connection, n)
    {
      TakenIs(w.desk.links, connection, n);
    }
  }

  /** No two open connections to the same database of the same profile have the same number; a profile
      is known by its id, or by its name when it has none. */
  lemma NumbersDiffer(w: World, i: int, j: int)
    requires w.Ok() && 0 <= i < j < |w.desk.links|
    ensures
      var a, b := w.desk.links[i], w.desk.links[j];
      var x := if a.connection.id != "" then a.connection.id else a.connection.name;
      var y := if b.connection.id != "" then b.connection.id else b.connection.name;
      a.id != b.id && (x == y && a.connection.database == b.connection.database ==> a.number != b.number)
  {}

  /** The only connection open, and one that is not, are not closed. */
  lemma NotClosed(w: World, on: int)
    requires w.Ok()
    requires |w.desk.links| == 1 || forall i :: 0 <= i < |w.desk.links| ==> w.desk.links[i].id != on
    ensures Next(w, Disconnect(on)) == w
  {}

  /** Closing a connection takes it and the tabs on it away, and no other connection and no other tab:
      `kept` is where those that are left were, in their order. */
  lemma {:induction false} ClosedIs(w: World, on: int, at: nat) returns (kept: seq<nat>)
    requires w.Ok() && at < |w.desk.links| && w.desk.links[at].id == on && |w.desk.links| > 1
    ensures
      var d, d' := w.desk, Next(w, Disconnect(on)).desk;
      && d'.links == d.links[..at] + d.links[at + 1..] && d'.minted == d.minted && d'.runs == d.runs
      && (forall i, j :: 0 <= i < j < |kept| ==> kept[i] < kept[j])
      && (forall i :: 0 <= i < |kept| ==> kept[i] < |d.tabs| && d.tabs[kept[i]].on != on)
      && (forall i :: 0 <= i < |d.tabs| && d.tabs[i].on != on ==> i in kept)
      && (kept != [] ==> |d'.tabs| == |kept| && forall i :: 0 <= i < |kept| ==> d'.tabs[i] == d.tabs[kept[i]])
  {
    hide *;
    OnlyOne(w, on, at);
    NextCloses(w, on);
    DisconnectTabs(w, on);
    DisconnectRest(w, on, at);
    kept := KeptAre(w.desk.tabs, on);
    assert kept != [] ==> Without(w.desk.tabs, on) != [];
  }

  lemma {:induction false} KeptAre(tabs: seq<Sheet>, on: int) returns (kept: seq<nat>)
    ensures forall i, j :: 0 <= i < j < |kept| ==> kept[i] < kept[j]
    ensures forall i :: 0 <= i < |kept| ==> kept[i] < |tabs| && tabs[kept[i]].on != on
    ensures forall i :: 0 <= i < |tabs| && tabs[i].on != on ==> i in kept
    ensures |kept| == |Without(tabs, on)| && forall i :: 0 <= i < |kept| ==> Without(tabs, on)[i] == tabs[kept[i]]
  {
    kept := Survivors(tabs, on);
    hide Survivors, Without;
    SurvivorsAre(tabs, on);
    SurvivorsExactly(tabs, on);
    forall i | 0 <= i < |kept|
      ensures tabs[kept[i]].on != on
    {
      assert kept[i] in kept;
    }
  }

  lemma {:induction false} OnlyOne(w: World, on: int, at: nat)
    requires w.Ok() && at < |w.desk.links| && w.desk.links[at].id == on
    ensures w.desk.Sound() && FirstLink(w.desk.links, on) == Some(at)
  {
    hide TabsHeld, TokensOk, Agrees, Next;
  }

  lemma NextCloses(w: World, on: int)
    requires w.desk.Sound()
    ensures Next(w, Disconnect(on)).desk == w.desk.Disconnect(on)
  {
    hide Desk.Disconnect;
  }

  lemma {:induction false} DisconnectRest(w: World, on: int, at: nat)
    requires w.Ok() && at < |w.desk.links| && w.desk.links[at].id == on && |w.desk.links| > 1
    ensures w.desk.Disconnect(on).minted == w.desk.minted && w.desk.Disconnect(on).runs == w.desk.runs
  {
    hide Without, Desk.FrontWithout;
  }

  lemma {:induction false} SurvivorsExactly(tabs: seq<Sheet>, on: int)
    ensures forall i :: i in Survivors(tabs, on) <==> 0 <= i < |tabs| && tabs[i].on != on
  {
    if tabs != [] {
      var n := |tabs| - 1;
      SurvivorsExactly(tabs[..n], on);
      assert forall i :: 0 <= i < n ==> tabs[..n][i] == tabs[i];
    }
  }

  /** When every tab was on the connection that went, an empty one is opened on the connection that took
      its place, or on the one before it when it was the last. */
  lemma {:induction false} ClosedAll(w: World, on: int, at: nat)
    requires w.Ok() && at < |w.desk.links| && w.desk.links[at].id == on && |w.desk.links| > 1
    requires forall i :: 0 <= i < |w.desk.tabs| ==> w.desk.tabs[i].on == on
    ensures
      var d := w.desk;
      var held := d.links[..at] + d.links[at + 1..];
      var next := if at + 1 < |d.links| then at else at - 1;
      Next(w, Disconnect(on)).desk ==
      Desk(held, next, [Sheet(held[next].id, 0, false, "", None)], 0, d.minted, d.runs)
  {
    var d := w.desk;
    OnlyOne(w, on, at);
    NoneBefore(d.tabs, |d.tabs|, on);
    assert d.tabs[..|d.tabs|] == d.tabs;
    assert d.links[d.linked].id == on;
    hide TabsHeld, TokensOk, FirstLink, Without, Desk.FrontWithout;
  }

  // ---------------------------------------------------------------------------------------
  // What is read of a server
  // ---------------------------------------------------------------------------------------

  /** A half of a read that failed says why and leaves what is known; one that came back replaces what
      it is about, and takes back what was said of its own failure but not of the other half's. */
  lemma LoadedIs(was: Contents, reading: Reading)
    ensures
      var now := Loaded(was, reading);
      && !now.loading && now.talk == was.talk && now.read == (was.read || reading.error == "")
      && now.findings == (if reading.error == "" && reading.part == Health then reading.findings else was.findings)
      && now.tables == (if reading.error == "" && reading.part == Catalogue then reading.tables else was.tables)
      && now.indexes == (if reading.error == "" && reading.part == Catalogue then reading.indexes else was.indexes)
      && (reading.error != "" ==> now.failure == reading.error && now.failing == Some(reading.part))
      && (reading.error == "" && was.failing == Some(reading.part) ==> now.failure == "" && now.failing == None)
      && (reading.error == "" && was.failing != Some(reading.part) ==>
            now.failure == was.failure && now.failing == was.failing)
  {}

  /** It lands in the connection it was read from, wherever one works by then, and nowhere when that
      has gone. */
  lemma {:induction false} LoadIs(w: World, on: int, reading: Reading)
    requires w.Ok()
    ensures
      var d, d' := w.desk, Next(w, Load(on, reading)).desk;
      && d' == d.(links := d'.links) && |d'.links| == |d.links|
      && forall i :: 0 <= i < |d.links| ==>
           d'.links[i] ==
           Link(d.links[i].id, d.links[i].number, d.links[i].connection,
                if d.links[i].id == on then Loaded(d.links[i].contents, reading) else d.links[i].contents)
  {
    LandsAtHome(w, on, contents => contents, reading);
  }
}
