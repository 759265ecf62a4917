/** The workbench as a simple thing: the open connections, the tabs, which of each is in front,
    and what every message does to them. */
module Desks {
  import opened Options
  import opened Strings

  /** A profile a session was opened from. */
  datatype Connection = Connection(id: string, name: string, database: string)
  {
    /** Its own identifier when it has one and its name when it does not. */
    function Profile(): string {
      if id != "" then id else name
    }
  }

  datatype Part = Health | Catalogue

  /** What has been read out of one server, and said about it. */
  datatype Contents = Contents(
    findings: seq<string>, tables: seq<string>, indexes: seq<string>, failure: string, failing: Option<Part>,
    loading: bool, read: bool, talk: seq<string>)

  const UNREAD := Contents([], [], [], "", None, false, false, [])

  /** One open connection. */
  datatype Link = Link(id: int, number: nat, connection: Connection, contents: Contents)
  {
    predicate StandsWith(other: Connection) {
      connection.Profile() == other.Profile() && connection.database == other.database
    }
  }

  datatype QueryResult = QueryResult(rows: seq<string>, error: string)

  /** One tab. */
  datatype Sheet = Sheet(on: int, token: nat, inflight: bool, statement: string, results: Option<QueryResult>)
  {
    /** Whether there is anything in the tab, or anything it waits for. */
    predicate Holds() {
      results.Some? || inflight || TrimSpace(statement) != ""
    }

    function Finished(): Sheet {
      this.(inflight := false)
    }
  }

  function NewSheet(on: int): Sheet {
    Sheet(on, 0, false, "", None)
  }

  /** One half of a read of a server coming back. */
  datatype Reading = Reading(
    part: Part, findings: seq<string>, tables: seq<string>, indexes: seq<string>, error: string)

  function Loaded(contents: Contents, reading: Reading): Contents {
    var done := contents.(loading := false);
    var applied :=
      if reading.error != "" then done.(failure := reading.error, failing := Some(reading.part))
      else if reading.part == Health then done.(findings := reading.findings, read := true)
      else done.(tables := reading.tables, indexes := reading.indexes, read := true);
    if reading.error == "" && applied.failing == Some(reading.part) then applied.(failure := "", failing := None)
    else applied
  }

  function FirstLink(links: seq<Link>, id: int): (r: Option<nat>)
    ensures r.Some? ==> r.value < |links| && links[r.value].id == id
    ensures r.Some? ==> forall i :: 0 <= i < r.value ==> links[i].id != id
    ensures r.None? ==> forall i :: 0 <= i < |links| ==> links[i].id != id
  {
    if links == [] then None
    else if links[0].id == id then Some(0)
    else match FirstLink(links[1..], id) case Some(i) => Some(i + 1) case None => None
  }

  function FirstTab(tabs: seq<Sheet>, token: nat): (r: Option<nat>)
    ensures r.Some? ==> r.value < |tabs| && tabs[r.value].token == token
    ensures r.Some? ==> forall i :: 0 <= i < r.value ==> tabs[i].token != token
    ensures r.None? ==> forall i :: 0 <= i < |tabs| ==> tabs[i].token != token
  {
    if tabs == [] then None
    else if tabs[0].token == token then Some(0)
    else match FirstTab(tabs[1..], token) case Some(i) => Some(i + 1) case None => None
  }

  /** The tabs that are not on one connection, in order. */
  function Without(tabs: seq<Sheet>, on: int): seq<Sheet> {
    if tabs == [] then []
    else Without(tabs[..|tabs| - 1], on) + (if tabs[|tabs| - 1].on == on then [] else [tabs[|tabs| - 1]])
  }

  /** Dropping tabs is keeping the others, or a new one when there is none, and going to the
      connection of the tab that is then in front. */
  lemma {:induction false} DropTabsIs(d: Desk, on: int, kept: seq<Sheet>, next: int)
    requires d.Sound()
    requires kept == if Without(d.tabs, on) == [] then [NewSheet(d.links[d.linked].id)] else Without(d.tabs, on)
    requires next == Min(Max(d.FrontWithout(on), 0), |kept| - 1)
    ensures 0 <= next < |kept|
    ensures d.DropTabs(on) == d.(tabs := kept, front := next).Through(kept[next].on)
  {
    hide Desk.Through;
    WithoutPrefix(d.tabs, d.front + 1, on);
  }

  lemma {:induction false} WithoutNothing(tabs: seq<Sheet>, on: int)
    ensures Without(tabs[..0], on) == []
  {}

  lemma {:induction false} WithoutNext(tabs: seq<Sheet>, i: nat, on: int)
    requires i < |tabs|
    ensures Without(tabs[..i + 1], on) == Without(tabs[..i], on) + (if tabs[i].on == on then [] else [tabs[i]])
  {
    assert tabs[..i + 1][..i] == tabs[..i];
  }

  /** Whether a number is taken among the sessions on one profile and one database. */
  predicate Taken(links: seq<Link>, connection: Connection, number: nat) {
    exists i :: 0 <= i < |links| && links[i].StandsWith(connection) && links[i].number == number
  }

  /** The smallest number that is not. */
  predicate Smallest(links: seq<Link>, connection: Connection, number: nat) {
    && 1 <= number && !Taken(links, connection, number)
    && forall n :: 1 <= n < number ==> Taken(links, connection, n)
  }

  /** Go's remainder, which has the sign of what is divided. */
  function Remainder(a: int, b: int): int
    requires b > 0
  {
    if a >= 0 then a % b else -((-a) % b)
  }

  datatype Desk = Desk(links: seq<Link>, linked: int, tabs: seq<Sheet>, front: int, minted: nat, runs: nat)
  {
    predicate Sound() {
      0 <= linked < |links| && 0 <= front < |tabs|
    }

    /** Puts the connection a tab belongs to in front; a tab that names none that is held
        stays on the one in front. */
    function Through(key: int): (d: Desk)
      requires Sound()
      ensures d.Sound()
    {
      if key == links[linked].id then this
      else match FirstLink(links, key)
        case Some(at) => this.(linked := at)
        case None => this.(tabs := tabs[front := tabs[front].(on := links[linked].id)])
    }

    function OnSheet(index: int): (d: Desk)
      requires Sound()
      ensures d.Sound()
    {
      if index < 0 || index >= |tabs| || index == front then this
      else this.(front := index).Through(tabs[index].on)
    }

    function WalkSheets(step: int): (d: Desk)
      requires Sound()
      ensures d.Sound()
    {
      if |tabs| < 2 then this else OnSheet(Remainder(front + step + |tabs|, |tabs|))
    }

    function OpenSheet(sheet: Sheet): (d: Desk)
      requires Sound()
      ensures d.Sound()
    {
      this.(tabs := tabs + [sheet], front := |tabs|).Through(sheet.on)
    }

    function CloseSheet(index: int): (d: Desk)
      requires Sound()
      ensures d.Sound()
    {
      if index < 0 || index >= |tabs| then this
      else if |tabs| == 1 then this.(tabs := [NewSheet(links[linked].id)], front := 0)
      else
        var kept := tabs[..index] + tabs[index + 1..];
        var next := if index <= front then Min(index, |kept| - 1) else front;
        this.(tabs := kept, front := next).Through(kept[next].on)
    }

    /** The front tab once a connection's tabs are gone: the nearest one that is kept at or
        before it, and otherwise the first. */
    function FrontWithout(on: int): int
      requires Sound()
    {
      var before := |Without(tabs[..front + 1], on)|;
      if before == 0 then 0 else before - 1
    }

    /** Drops the tabs of one connection; the last tab is replaced rather than removed. */
    function DropTabs(on: int): (d: Desk)
      requires Sound()
      ensures d.Sound()
    {
      var kept := Without(tabs, on);
      if kept == [] then this.(tabs := [NewSheet(links[linked].id)], front := 0).Through(links[linked].id)
      else
        WithoutPrefix(tabs, front + 1, on);
        var next := FrontWithout(on);
        this.(tabs := kept, front := next).Through(kept[next].on)
    }

    function DropLink(at: nat): (d: Desk)
      requires Sound() && at < |links| && |links| > 1
      ensures d.Sound()
    {
      var held := links[..at] + links[at + 1..];
      this.(links := held,
            linked := if at < linked then linked - 1 else if at == linked then Min(at, |held| - 1) else linked)
    }

    function Disconnect(on: int): (d: Desk)
      requires Sound()
      ensures d.Sound()
    {
      match FirstLink(links, on)
      case None => this
      case Some(at) => if |links| == 1 then this else DropLink(at).DropTabs(on)
    }

    /** Aims a tab at a connection: the one in front when there is nothing in it, and a new
        one otherwise. */
    function Aim(on: int): (d: Desk)
      requires Sound()
      ensures d.Sound()
    {
      if tabs[front].Holds() then OpenSheet(NewSheet(on))
      else this.(tabs := tabs[front := tabs[front].(on := on)]).Through(on)
    }

    function Reach(at: int): (d: Desk)
      requires Sound()
      ensures d.Sound()
    {
      if at < 0 || at >= |links| then this
      else if links[at].id == links[linked].id && tabs[front].on == links[at].id then this
      else Aim(links[at].id)
    }

    function WithFront(contents: Contents): (d: Desk)
      requires Sound()
      ensures d.Sound()
    {
      this.(links := links[linked := links[linked].(contents := contents)])
    }

    /** A connection that was asked for failed to open. */
    function Troubled(): (d: Desk)
      requires Sound()
      ensures d.Sound()
    {
      WithFront(links[linked].contents.(loading := false))
    }

    /** A connection that was asked for is open. */
    function Switched(connection: Connection, number: nat): (d: Desk)
      requires Sound()
      ensures d.Sound()
    {
      var before := Troubled();
      var added := Link(minted + 1, number, connection, UNREAD);
      var fronted := before.(links := before.links + [added], linked := |before.links|, minted := minted + 1);
      var aimed := fronted.Aim(minted + 1);
      aimed.WithFront(aimed.links[aimed.linked].contents.(loading := true, failure := ""))
    }

    /** One connection's contents changed, and nothing else. */
    function Wrote(on: int, contents: Contents): (d: Desk)
      requires Sound()
      ensures d.Sound()
    {
      match FirstLink(links, on)
      case Some(at) => this.(links := links[at := links[at].(contents := contents)])
      case None => this
    }

    function Load(on: int, reading: Reading): (d: Desk)
      requires Sound()
      ensures d.Sound()
    {
      match FirstLink(links, on)
      case Some(at) => Wrote(on, Loaded(links[at].contents, reading))
      case None => this
    }

    function Answer(on: int, answering: Contents -> Contents): (d: Desk)
      requires Sound()
      ensures d.Sound()
    {
      match FirstLink(links, on)
      case Some(at) => Wrote(on, answering(links[at].contents))
      case None => this
    }

    function Type(text: string): (d: Desk)
      requires Sound()
      ensures d.Sound()
    {
      this.(tabs := tabs[front := tabs[front].(statement := text)])
    }

    function Run(): (d: Desk)
      requires Sound()
      ensures d.Sound()
    {
      this.(runs := runs + 1, tabs := tabs[front := tabs[front].(token := runs + 1, inflight := true)])
    }

    /** The tab a result belongs to. */
    function Owner(token: nat): (r: Option<nat>)
      requires Sound()
      ensures r.Some? ==> r.value < |tabs| && tabs[r.value].token == token
      ensures r.None? ==> forall i :: 0 <= i < |tabs| ==> tabs[i].token != token
    {
      if tabs[front].token == token then Some(front) else FirstTab(tabs, token)
    }

    function Return(token: nat, result: QueryResult): (d: Desk)
      requires Sound()
      ensures d.Sound()
    {
      match Owner(token)
      case Some(i) => this.(tabs := tabs[i := tabs[i].Finished().(results := Some(result))])
      case None => this
    }
  }

  lemma {:induction false} WithoutPrefix(tabs: seq<Sheet>, n: nat, on: int)
    requires n <= |tabs|
    ensures Without(tabs[..n], on) <= Without(tabs, on)
  {
    if n < |tabs| {
      WithoutPrefix(tabs[..|tabs| - 1], n, on);
      assert tabs[..|tabs| - 1][..n] == tabs[..n];
    } else {
      assert tabs[..n] == tabs;
    }
  }
}
