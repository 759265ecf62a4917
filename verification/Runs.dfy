/** Every run of the workbench: what each message keeps, where results go, and what
    disconnecting takes with it. */
module DeskRuns {
  import opened Options
  import opened Desks

  // ---------------------------------------------------------------------------------------
  // What is always so
  // ---------------------------------------------------------------------------------------

  predicate Holding(links: seq<Link>, id: int) {
    exists i :: 0 <= i < |links| && links[i].id == id
  }

  /** Ids are distinct and were all minted, and no two sessions on one profile and one
      database share a number. */
  predicate LinksOk(links: seq<Link>, minted: nat) {
    && (forall i :: 0 <= i < |links| ==> 1 <= links[i].id <= minted && links[i].number >= 1)
    && (forall i, j :: 0 <= i < j < |links| ==> links[i].id != links[j].id)
    && (forall i, j :: 0 <= i < j < |links| && links[i].StandsWith(links[j].connection) ==>
          links[i].number != links[j].number)
  }

  predicate TabsHeld(tabs: seq<Sheet>, links: seq<Link>) {
    forall i :: 0 <= i < |tabs| ==> Holding(links, tabs[i].on)
  }

  predicate Agrees(d: Desk)
    requires d.Sound()
  {
    d.tabs[d.front].on == d.links[d.linked].id
  }

  /** The tokens of the tabs are distinct, those that are tokens at all, and a tab waits
      exactly when the result of its latest run has not come back. */
  predicate TokensOk(tabs: seq<Sheet>, runs: nat, waiting: set<nat>) {
    && (forall i :: 0 <= i < |tabs| ==> tabs[i].token <= runs)
    && (forall i, j :: 0 <= i < j < |tabs| && tabs[i].token == tabs[j].token ==> tabs[i].token == 0)
    && (forall i :: 0 <= i < |tabs| ==> (tabs[i].inflight <==> tabs[i].token in waiting))
  }

  /** The workbench and the statements that were sent and have not come back. */
  datatype World = World(desk: Desk, waiting: set<nat>)
  {
    predicate Ok() {
      && desk.Sound() && LinksOk(desk.links, desk.minted) && TabsHeld(desk.tabs, desk.links) && Agrees(desk)
      && TokensOk(desk.tabs, desk.runs, waiting)
      && (forall t :: t in waiting ==> 1 <= t <= desk.runs)
    }
  }

  datatype Step =
    | NewTab(statement: string)
    | CloseFront
    | GoTo(index: int)
    | Walk(step: int)
    | Type(text: string)
    | Run
    | Returns(token: nat, result: QueryResult)
    | Trouble
    | Switch(connection: Connection, number: nat)
    | Reach(at: int)
    | Disconnect(on: int)
    | Load(on: int, reading: Reading)
    | Answer(on: int, answering: Contents -> Contents)

  /** A result comes back once for each statement that was sent; everything else may happen at
      any time. */
  predicate Enabled(w: World, step: Step) {
    match step
    case Returns(token, _) => token in w.waiting
    case Switch(connection, number) => Smallest(w.desk.links, connection, number)
    case _ => true
  }

  function Next(w: World, step: Step): World
    requires w.desk.Sound()
  {
    var d := w.desk;
    match step
    case NewTab(statement) => World(d.OpenSheet(NewSheet(d.links[d.linked].id).(statement := statement)), w.waiting)
    case CloseFront => World(d.CloseSheet(d.front), w.waiting)
    case GoTo(index) => World(d.OnSheet(index), w.waiting)
    case Walk(move) => World(d.WalkSheets(move), w.waiting)
    case Type(text) => World(d.Type(text), w.waiting)
    case Run => World(d.Run(), w.waiting + {d.runs + 1})
    case Returns(token, result) => World(d.Return(token, result), w.waiting - {token})
    case Trouble => World(d.Troubled(), w.waiting)
    case Switch(connection, number) => World(d.Switched(connection, number), w.waiting)
    case Reach(at) => World(d.Reach(at), w.waiting)
    case Disconnect(on) => World(d.Disconnect(on), w.waiting)
    case Load(on, reading) => World(d.Load(on, reading), w.waiting)
    case Answer(on, answering) => World(d.Answer(on, answering), w.waiting)
  }

  predicate Reaches(w: World, steps: seq<Step>, w': World)
    decreases |steps|
  {
    if steps == [] then w == w'
    else w.desk.Sound() && Enabled(w, steps[0]) && Reaches(Next(w, steps[0]), steps[1..], w')
  }

  function Start(connection: Connection): World {
    World(Desk([Link(1, 1, connection, UNREAD.(loading := true))], 0, [NewSheet(1)], 0, 1, 0), {})
  }

  // ---------------------------------------------------------------------------------------
  // The parts every step is made of
  // ---------------------------------------------------------------------------------------

  /** Moving to the connection the front tab is on brings the two together again. */
  lemma ThroughAgrees(d: Desk)
    requires d.Sound() && LinksOk(d.links, d.minted) && TabsHeld(d.tabs, d.links)
    ensures var d' := d.Through(d.tabs[d.front].on);
            d' == d.(linked := d'.linked) && Agrees(d')
  {}

  lemma AppendHeld(tabs: seq<Sheet>, sheet: Sheet, links: seq<Link>)
    requires TabsHeld(tabs, links) && Holding(links, sheet.on)
    ensures TabsHeld(tabs + [sheet], links)
  {}

  lemma AppendTokens(tabs: seq<Sheet>, sheet: Sheet, runs: nat, waiting: set<nat>)
    requires TokensOk(tabs, runs, waiting) && sheet.token == 0 && !sheet.inflight && 0 !in waiting
    ensures TokensOk(tabs + [sheet], runs, waiting)
  {}

  lemma OpenKeeps(w: World, sheet: Sheet)
    requires w.desk.Sound() && LinksOk(w.desk.links, w.desk.minted) && TabsHeld(w.desk.tabs, w.desk.links)
    requires TokensOk(w.desk.tabs, w.desk.runs, w.waiting) && forall t :: t in w.waiting ==> 1 <= t <= w.desk.runs
    requires Holding(w.desk.links, sheet.on) && sheet.token == 0 && !sheet.inflight
    ensures World(w.desk.OpenSheet(sheet), w.waiting).Ok()
    ensures w.desk.OpenSheet(sheet) ==
            w.desk.(tabs := w.desk.tabs + [sheet], front := |w.desk.tabs|, linked := w.desk.OpenSheet(sheet).linked)
  {
    hide LinksOk, TabsHeld, TokensOk, Holding;
    var d := w.desk;
    AppendHeld(d.tabs, sheet, d.links);
    AppendTokens(d.tabs, sheet, d.runs, w.waiting);
    ThroughAgrees(d.(tabs := d.tabs + [sheet], front := |d.tabs|));
  }

  function Removed(tabs: seq<Sheet>, index: nat): seq<Sheet>
    requires index < |tabs|
  {
    tabs[..index] + tabs[index + 1..]
  }

  lemma RemovedKeeps(tabs: seq<Sheet>, index: nat, links: seq<Link>, runs: nat, waiting: set<nat>)
    requires index < |tabs| && TabsHeld(tabs, links) && TokensOk(tabs, runs, waiting)
    ensures TabsHeld(Removed(tabs, index), links) && TokensOk(Removed(tabs, index), runs, waiting)
  {}

  lemma CloseKeeps(w: World)
    requires w.Ok()
    ensures World(w.desk.CloseSheet(w.desk.front), w.waiting).Ok()
  {
    var d := w.desk;
    if |d.tabs| > 1 {
      hide LinksOk, TabsHeld, TokensOk;
      RemovedKeeps(d.tabs, d.front, d.links, d.runs, w.waiting);
      var kept := Removed(d.tabs, d.front);
      ThroughAgrees(d.(tabs := kept, front := Min(d.front, |kept| - 1)));
    } else {
      hide LinksOk;
      FrontHeld(d);
      ThroughAgrees(d.(tabs := [NewSheet(d.links[d.linked].id)], front := 0));
    }
  }

  lemma GoKeeps(w: World, index: int)
    requires w.Ok()
    ensures World(w.desk.OnSheet(index), w.waiting).Ok()
  {}

  lemma TypeKeeps(w: World, text: string)
    requires w.Ok()
    ensures World(w.desk.Type(text), w.waiting).Ok()
  {}

  lemma RunKeeps(w: World)
    requires w.Ok()
    ensures World(w.desk.Run(), w.waiting + {w.desk.runs + 1}).Ok()
  {}

  lemma ReturnKeeps(w: World, token: nat, result: QueryResult)
    requires w.Ok() && token in w.waiting
    ensures World(w.desk.Return(token, result), w.waiting - {token}).Ok()
  {
    hide LinksOk, Holding;
  }

  /** Reading a server, or talking about it, moves nothing. */
  lemma ContentsKeep(w: World, at: nat, contents: Contents)
    requires w.Ok() && at < |w.desk.links|
    ensures w.(desk := w.desk.(links := w.desk.links[at := w.desk.links[at].(contents := contents)])).Ok()
  {
    var links := w.desk.links[at := w.desk.links[at].(contents := contents)];
    SameLinks(w.desk.links, links, w.desk.minted);
    forall i | 0 <= i < |w.desk.tabs|
      ensures Holding(links, w.desk.tabs[i].on)
    {
      SameHolding(w.desk.links, links, w.desk.tabs[i].on);
    }
  }

  predicate SameBut(a: seq<Link>, b: seq<Link>) {
    |a| == |b| && forall i :: 0 <= i < |a| ==> b[i] == a[i].(contents := b[i].contents)
  }

  lemma SameLinks(a: seq<Link>, b: seq<Link>, minted: nat)
    requires SameBut(a, b) && LinksOk(a, minted)
    ensures LinksOk(b, minted)
  {}

  lemma SameHolding(a: seq<Link>, b: seq<Link>, id: int)
    requires SameBut(a, b) && Holding(a, id)
    ensures Holding(b, id)
  {}

  /** A new connection gets an id and a number nobody has. */
  lemma AddKeeps(links: seq<Link>, minted: nat, connection: Connection, number: nat)
    requires LinksOk(links, minted) && Smallest(links, connection, number)
    ensures LinksOk(links + [Link(minted + 1, number, connection, UNREAD)], minted + 1)
    ensures forall id :: Holding(links, id) ==> Holding(links + [Link(minted + 1, number, connection, UNREAD)], id)
    ensures Holding(links + [Link(minted + 1, number, connection, UNREAD)], minted + 1)
  {
    var all := links + [Link(minted + 1, number, connection, UNREAD)];
    assert all[|links|].id == minted + 1;
    assert forall i :: 0 <= i < |links| ==> all[i] == links[i];
    forall i, j | 0 <= i < j < |all| && all[i].StandsWith(all[j].connection)
      ensures all[i].number != all[j].number
    {
      if j == |links| {
        TakenBy(links, connection, i);
      }
    }
    forall id | Holding(links, id)
      ensures Holding(all, id)
    {
      var i :| 0 <= i < |links| && links[i].id == id;
      assert all[i].id == id;
    }
  }

  lemma TakenBy(links: seq<Link>, connection: Connection, i: nat)
    requires i < |links| && links[i].StandsWith(connection)
    ensures Taken(links, connection, links[i].number)
  {}

  lemma AimKeeps(w: World, on: int)
    requires w.desk.Sound() && LinksOk(w.desk.links, w.desk.minted) && TabsHeld(w.desk.tabs, w.desk.links)
    requires TokensOk(w.desk.tabs, w.desk.runs, w.waiting) && forall t :: t in w.waiting ==> 1 <= t <= w.desk.runs
    requires Holding(w.desk.links, on)
    ensures World(w.desk.Aim(on), w.waiting).Ok()
    ensures w.desk.links[w.desk.linked].id == on ==> w.desk.Aim(on).linked == w.desk.linked
  {
    hide LinksOk, Holding, Sheet.Holds;
    var d := w.desk;
    if d.tabs[d.front].Holds() {
      OpenKeeps(w, NewSheet(on));
    } else {
      ThroughAgrees(d.(tabs := d.tabs[d.front := d.tabs[d.front].(on := on)]));
    }
  }

  lemma SwitchKeeps(w: World, connection: Connection, number: nat)
    requires w.Ok() && Smallest(w.desk.links, connection, number)
    ensures World(w.desk.Switched(connection, number), w.waiting).Ok()
  {
    hide LinksOk, TabsHeld, TokensOk, Smallest, Holding;
    var d := w.desk.Troubled();
    ContentsKeep(w, w.desk.linked, w.desk.links[w.desk.linked].contents.(loading := false));
    SmallestSame(w.desk.links, d.links, connection, number);
    AddKeeps(d.links, d.minted, connection, number);
    var all := d.links + [Link(d.minted + 1, number, connection, UNREAD)];
    HeldStill(d.tabs, d.links, all);
    var added := d.(links := all, linked := |d.links|, minted := d.minted + 1);
    AimKeeps(World(added, w.waiting), d.minted + 1);
    var aimed := added.Aim(d.minted + 1);
    var contents := aimed.links[aimed.linked].contents.(loading := true, failure := "");
    ContentsKeep(World(aimed, w.waiting), aimed.linked, contents);
  }

  lemma SmallestSame(a: seq<Link>, b: seq<Link>, connection: Connection, number: nat)
    requires SameBut(a, b) && Smallest(a, connection, number)
    ensures Smallest(b, connection, number)
  {
    forall n: nat
      ensures Taken(a, connection, n) <==> Taken(b, connection, n)
    {
      if Taken(a, connection, n) {
        var i :| 0 <= i < |a| && a[i].StandsWith(connection) && a[i].number == n;
        assert b[i].StandsWith(connection) && b[i].number == n;
      }
      if Taken(b, connection, n) {
        var i :| 0 <= i < |b| && b[i].StandsWith(connection) && b[i].number == n;
        assert a[i].StandsWith(connection) && a[i].number == n;
      }
    }
  }

  lemma HeldStill(tabs: seq<Sheet>, links: seq<Link>, more: seq<Link>)
    requires TabsHeld(tabs, links) && forall id :: Holding(links, id) ==> Holding(more, id)
    ensures TabsHeld(tabs, more)
  {}

  // ---------------------------------------------------------------------------------------
  // Disconnecting
  // ---------------------------------------------------------------------------------------

  lemma {:induction false} WithoutIs(tabs: seq<Sheet>, on: int)
    ensures forall tab :: tab in Without(tabs, on) <==> tab in tabs && tab.on != on
    ensures |Without(tabs, on)| <= |tabs|
  {
    if tabs != [] {
      var rest, last := tabs[..|tabs| - 1], tabs[|tabs| - 1];
      WithoutIs(rest, on);
      assert tabs == rest + [last];
    }
  }

  lemma {:induction false} WithoutTokens(tabs: seq<Sheet>, on: int, runs: nat, waiting: set<nat>)
    requires TokensOk(tabs, runs, waiting)
    ensures TokensOk(Without(tabs, on), runs, waiting)
  {
    if tabs != [] {
      var rest, last := tabs[..|tabs| - 1], tabs[|tabs| - 1];
      WithoutTokens(rest, on, runs, waiting);
      WithoutIs(rest, on);
      var kept := Without(rest, on);
      hide Without;
      if last.on != on {
        forall i | 0 <= i < |kept|
          ensures kept[i].token == last.token ==> last.token == 0
        {
          assert kept[i] in rest;
        }
        SnocTokens(kept, last, runs, waiting);
      }
    }
  }

  lemma SnocTokens(tabs: seq<Sheet>, last: Sheet, runs: nat, waiting: set<nat>)
    requires TokensOk(tabs, runs, waiting) && last.token <= runs && (last.inflight <==> last.token in waiting)
    requires forall i :: 0 <= i < |tabs| && tabs[i].token == last.token ==> last.token == 0
    ensures TokensOk(tabs + [last], runs, waiting)
  {}

  /** The connections that are left are the others, in their order. */
  lemma DropLinkKeeps(links: seq<Link>, minted: nat, at: nat)
    requires LinksOk(links, minted) && at < |links|
    ensures var held := links[..at] + links[at + 1..];
            && LinksOk(held, minted)
            && (forall id :: Holding(held, id) <==> Holding(links, id) && id != links[at].id)
  {
    var held := links[..at] + links[at + 1..];
    assert forall i :: 0 <= i < |held| ==> held[i] == links[if i < at then i else i + 1];
    forall id
      ensures Holding(held, id) <==> Holding(links, id) && id != links[at].id
    {
      HeldWithout(links, at, id);
    }
    hide Holding;
  }

  lemma {:induction false} HeldWithout(links: seq<Link>, at: nat, id: int)
    requires at < |links| && forall i, j :: 0 <= i < j < |links| ==> links[i].id != links[j].id
    ensures Holding(links[..at] + links[at + 1..], id) <==> Holding(links, id) && id != links[at].id
  {
    var held := links[..at] + links[at + 1..];
    assert forall i :: 0 <= i < |held| ==> held[i] == links[if i < at then i else i + 1];
    if Holding(links, id) && id != links[at].id {
      var i :| 0 <= i < |links| && links[i].id == id;
      assert held[if i < at then i else i - 1] == links[i];
    }
  }

  lemma DisconnectKeeps(w: World, on: int)
    requires w.Ok()
    ensures World(w.desk.Disconnect(on), w.waiting).Ok()
  {
    var d := w.desk;
    var found := FirstLink(d.links, on);
    hide LinksOk, TabsHeld, TokensOk, Holding, Without, Desk.DropTabs, Desk.Through;
    if found.Some? && |d.links| > 1 {
      var e := d.DropLink(found.value);
      DropLinkKeeps(d.links, d.minted, found.value);
      WithoutTokens(d.tabs, on, d.runs, w.waiting);
      KeptHeld(d.tabs, d.links, e.links, on);
      DropTabsKeeps(World(e, w.waiting), on);
    }
  }

  lemma {:induction false} KeptHeld(tabs: seq<Sheet>, links: seq<Link>, held: seq<Link>, on: int)
    requires TabsHeld(tabs, links)
    requires forall id :: Holding(links, id) && id != on ==> Holding(held, id)
    ensures TabsHeld(Without(tabs, on), held)
  {
    hide Holding;
    var kept := Without(tabs, on);
    WithoutIs(tabs, on);
    forall i | 0 <= i < |kept|
      ensures Holding(held, kept[i].on)
    {
      assert kept[i] in kept;
    }
  }

  lemma {:induction false} DropTabsKeeps(w: World, on: int)
    requires w.desk.Sound() && LinksOk(w.desk.links, w.desk.minted)
    requires TabsHeld(Without(w.desk.tabs, on), w.desk.links)
    requires TokensOk(Without(w.desk.tabs, on), w.desk.runs, w.waiting)
    requires forall t :: t in w.waiting ==> 1 <= t <= w.desk.runs
    ensures World(w.desk.DropTabs(on), w.waiting).Ok()
  {
    var d, left := w.desk, Without(w.desk.tabs, on);
    var kept := if left == [] then [NewSheet(d.links[d.linked].id)] else left;
    var next := Min(Max(d.FrontWithout(on), 0), |kept| - 1);
    DropTabsIs(d, on, kept, next);
    if left == [] {
      NewTabOk(d, w.waiting);
    }
    hide *;
    TabsReplaced(d, kept, next, w.waiting);
  }

  lemma NewTabOk(d: Desk, waiting: set<nat>)
    requires d.Sound() && forall t :: t in waiting ==> 1 <= t <= d.runs
    ensures TabsHeld([NewSheet(d.links[d.linked].id)], d.links)
    ensures TokensOk([NewSheet(d.links[d.linked].id)], d.runs, waiting)
  {}

  /** Other tabs, with one of them in front and its connection with it. */
  lemma TabsReplaced(d: Desk, tabs: seq<Sheet>, front: int, waiting: set<nat>)
    requires d.Sound() && 0 <= front < |tabs| && LinksOk(d.links, d.minted)
    requires TabsHeld(tabs, d.links) && TokensOk(tabs, d.runs, waiting) && forall t :: t in waiting ==> 1 <= t <= d.runs
    ensures World(d.(tabs := tabs, front := front).Through(tabs[front].on), waiting).Ok()
  {}

  lemma {:induction false} FrontInside(d: Desk, on: int)
    requires d.Sound() && Without(d.tabs, on) != []
    ensures 0 <= d.FrontWithout(on) < |Without(d.tabs, on)|
  {
    WithoutPrefix(d.tabs, d.front + 1, on);
  }

  // ---------------------------------------------------------------------------------------
  // Every run
  // ---------------------------------------------------------------------------------------

  lemma StartOk(connection: Connection)
    ensures Start(connection).Ok()
  {
    assert Start(connection).desk.links[0].id == 1;
  }

  lemma StepKeeps(w: World, step: Step)
    requires w.Ok() && Enabled(w, step)
    ensures Next(w, step).Ok()
  {
    hide LinksOk, TabsHeld, TokensOk, Holding, Smallest;
    var d := w.desk;
    match step
    case NewTab(statement) =>
      FrontHeld(d);
      OpenKeeps(w, NewSheet(d.links[d.linked].id).(statement := statement));
    case CloseFront => CloseKeeps(w);
    case GoTo(index) => GoKeeps(w, index);
    case Walk(move) =>
      if |d.tabs| >= 2 {
        GoKeeps(w, Remainder(d.front + move + |d.tabs|, |d.tabs|));
      }
    case Type(text) => TypeKeeps(w, text);
    case Run => RunKeeps(w);
    case Returns(token, result) => ReturnKeeps(w, token, result);
    case Trouble => ContentsKeep(w, d.linked, d.links[d.linked].contents.(loading := false));
    case Switch(connection, number) => SwitchKeeps(w, connection, number);
    case Reach(at) =>
      if 0 <= at < |d.links| {
        assert Holding(d.links, d.links[at].id) by {
          LinkHeld(d.links, at);
        }
        AimKeeps(w, d.links[at].id);
      }
    case Disconnect(on) => DisconnectKeeps(w, on);
    case Load(on, reading) =>
      var found := FirstLink(d.links, on);
      if found.Some? {
        ContentsKeep(w, found.value, Loaded(d.links[found.value].contents, reading));
      }
    case Answer(on, answering) =>
      var found := FirstLink(d.links, on);
      if found.Some? {
        ContentsKeep(w, found.value, answering(d.links[found.value].contents));
      }
  }

  lemma FrontHeld(d: Desk)
    requires d.Sound()
    ensures Holding(d.links, d.links[d.linked].id)
  {}

  lemma LinkHeld(links: seq<Link>, at: nat)
    requires at < |links|
    ensures Holding(links, links[at].id)
  {}

  /** In every run from the start, everything above is so. */
  lemma {:induction false} RunOk(w: World, steps: seq<Step>, w': World)
    requires w.Ok() && Reaches(w, steps, w')
    ensures w'.Ok()
    decreases |steps|
  {
    hide World.Ok, Next;
    if steps != [] {
      StepKeeps(w, steps[0]);
      RunOk(Next(w, steps[0]), steps[1..], w');
    }
  }

  // ---------------------------------------------------------------------------------------
  // Where a result goes
  // ---------------------------------------------------------------------------------------

  /** A result goes to exactly the tab whose latest run asked for it, wherever that tab now
      is, and to none when there is no such tab any more. */
  lemma ResultGoesHome(w: World, token: nat, result: QueryResult)
    requires w.Ok() && token in w.waiting
    ensures
      var tabs := w.desk.tabs;
      var tabs' := Next(w, Returns(token, result)).desk.tabs;
      && |tabs'| == |tabs|
      && (forall i :: 0 <= i < |tabs| ==>
            tabs'[i] ==
            if tabs[i].token == token then tabs[i].(inflight := false, results := Some(result)) else tabs[i])
      && (forall i, j :: 0 <= i < |tabs| && 0 <= j < |tabs| && tabs[i].token == token && tabs[j].token == token ==>
            i == j)
    ensures Next(w, Returns(token, result)).desk == w.desk.(tabs := Next(w, Returns(token, result)).desk.tabs)
  {}

  /** One connection with other contents, and everything else as it was. */
  predicate OnlyContents(d: Desk, on: int, contents: Contents -> Contents, d': Desk) {
    && d' == d.(links := d'.links) && |d'.links| == |d.links|
    && forall i :: 0 <= i < |d.links| ==>
         d'.links[i] ==
         if d.links[i].id == on then d.links[i].(contents := contents(d.links[i].contents)) else d.links[i]
  }

  /** What a turn does, it does to the connection that asked for it, wherever one works by then; what
      was read of a server lands in the connection it was read from. */
  lemma {:induction false} LandsAtHome(w: World, on: int, answering: Contents -> Contents, reading: Reading)
    requires w.Ok()
    ensures OnlyContents(w.desk, on, answering, w.desk.Answer(on, answering))
    ensures OnlyContents(w.desk, on, contents => Loaded(contents, reading), w.desk.Load(on, reading))
  {}

  /** Turns on two connections may answer in either order. */
  lemma {:induction false} AnswersCommute(w: World, a: int, f: Contents -> Contents, b: int, g: Contents -> Contents)
    requires w.Ok() && a != b
    ensures w.desk.Answer(a, f).Answer(b, g) == w.desk.Answer(b, g).Answer(a, f)
  {
    var d := w.desk;
    LinkOfSame(d, a, f, b);
    LinkOfSame(d, b, g, a);
  }

  lemma {:induction false} LinkOfSame(d: Desk, a: int, f: Contents -> Contents, key: int)
    requires d.Sound()
    ensures FirstLink(d.Answer(a, f).links, key) == FirstLink(d.links, key)
  {
    SameIds(d.links, d.Answer(a, f).links, key);
  }

  lemma {:induction false} SameIds(a: seq<Link>, b: seq<Link>, key: int)
    requires |a| == |b| && forall i :: 0 <= i < |a| ==> a[i].id == b[i].id
    ensures FirstLink(a, key) == FirstLink(b, key)
  {
    if a != [] {
      SameIds(a[1..], b[1..], key);
    }
  }

  /** The two halves of a read may come back in either order, when neither failed. */
  lemma {:induction false} HalvesCommute(contents: Contents, a: Reading, b: Reading)
    requires a.error == "" && b.error == "" && a.part != b.part
    ensures Loaded(Loaded(contents, a), b) == Loaded(Loaded(contents, b), a)
  {}

  // ---------------------------------------------------------------------------------------
  // What happens to a tab
  // ---------------------------------------------------------------------------------------

  /** Where the tabs that are not on one connection were. */
  function Survivors(tabs: seq<Sheet>, on: int): seq<nat> {
    if tabs == [] then []
    else Survivors(tabs[..|tabs| - 1], on) + (if tabs[|tabs| - 1].on == on then [] else [|tabs| - 1])
  }

  lemma {:induction false} SurvivorsAre(tabs: seq<Sheet>, on: int)
    ensures var s, kept := Survivors(tabs, on), Without(tabs, on);
            && |s| == |kept|
            && (forall i :: 0 <= i < |s| ==> s[i] < |tabs| && tabs[s[i]] == kept[i])
            && (forall i, j :: 0 <= i < j < |s| ==> s[i] < s[j])
  {
    if tabs != [] {
      SurvivorsAre(tabs[..|tabs| - 1], on);
    }
  }

  function Indexes(n: nat): (r: seq<nat>)
    ensures |r| == n && forall i :: 0 <= i < n ==> r[i] == i
  {
    seq(n, i => i)
  }

  /** Where each tab was before a step; one that was not there is past the end. */
  function Origins(d: Desk, step: Step): seq<nat>
    requires d.Sound()
  {
    var same := Indexes(|d.tabs|);
    match step
    case NewTab(_) => same + [|d.tabs|]
    case CloseFront => if |d.tabs| == 1 then [|d.tabs|] else same[..d.front] + same[d.front + 1..]
    case Switch(_, _) => if d.tabs[d.front].Holds() then same + [|d.tabs|] else same
    case Reach(at) =>
      if 0 <= at < |d.links| && !(InFrontAlready(d, at)) && d.tabs[d.front].Holds() then same + [|d.tabs|] else same
    case Disconnect(on) =>
      if FirstLink(d.links, on).None? || |d.links| == 1 then same
      else if Without(d.tabs, on) == [] then [|d.tabs|] else Survivors(d.tabs, on)
    case _ => same
  }

  predicate InFrontAlready(d: Desk, at: nat)
    requires d.Sound() && at < |d.links|
  {
    d.links[at].id == d.links[d.linked].id && d.tabs[d.front].on == d.links[at].id
  }

  /** What a message makes of a tab that was there. The one in front takes what is typed and what is
      run; a result goes to the tab whose run it is of; and the one in front is aimed at another
      connection when it holds nothing, so nothing that was written or returned ever is. */
  function After(d: Desk, step: Step, was: nat): Sheet
    requires d.Sound() && was < |d.tabs|
  {
    var tab, fronted := d.tabs[was], was == d.front;
    match step
    case Type(text) => if fronted then tab.(statement := text) else tab
    case Run => if fronted then tab.(token := d.runs + 1, inflight := true) else tab
    case Returns(token, result) => if tab.token == token then tab.(inflight := false, results := Some(result)) else tab
    case Switch(_, _) => if fronted && !tab.Holds() then tab.(on := d.minted + 1) else tab
    case Reach(at) => if fronted && !tab.Holds() && 0 <= at < |d.links| then tab.(on := d.links[at].id) else tab
    case _ => tab
  }

  /** A tab that was not: nothing in it but the statement it was asked for with, and on the connection
      the message is about. */
  predicate Opened(d: Desk, step: Step, d': Desk, tab: Sheet)
    requires d.Sound() && d'.Sound()
  {
    match step
    case NewTab(statement) => tab == Sheet(d.links[d.linked].id, 0, false, statement, None)
    case Switch(_, _) => tab == Sheet(d.minted + 1, 0, false, "", None)
    case Reach(at) => 0 <= at < |d.links| && tab == Sheet(d.links[at].id, 0, false, "", None)
    case Disconnect(_) => tab == Sheet(d'.links[d'.linked].id, 0, false, "", None)
    case _ => tab == Sheet(d.links[d.linked].id, 0, false, "", None)
  }

  /** The tabs that are left are those that were, in their order, each as the message makes it; any
      other is new. */
  predicate TabsKept(d: Desk, step: Step, d': Desk)
    requires d.Sound() && d'.Sound()
  {
    var o := Origins(d, step);
    && |o| == |d'.tabs|
    && (forall i, j :: 0 <= i < j < |o| ==> o[i] < o[j])
    && (forall i :: 0 <= i < |o| ==>
          if o[i] < |d.tabs| then d'.tabs[i] == After(d, step, o[i]) else Opened(d, step, d', d'.tabs[i]))
  }

  lemma KeptInPlace(d: Desk, step: Step, d': Desk)
    requires d.Sound() && d'.Sound() && Origins(d, step) == Indexes(|d.tabs|) && |d'.tabs| == |d.tabs|
    requires forall i :: 0 <= i < |d.tabs| ==> d'.tabs[i] == After(d, step, i)
    ensures TabsKept(d, step, d')
  {}

  lemma StepKeepsTabs(w: World, step: Step)
    requires w.Ok() && Enabled(w, step)
    ensures TabsKept(w.desk, step, Next(w, step).desk)
  {
    hide World.Ok, TabsKept, Smallest;
    match step
    case NewTab(_) => NewKeepsTabs(w, step);
    case CloseFront => CloseKeepsTabs(w);
    case Switch(_, _) => SwitchedKeepsTabs(w, step);
    case Reach(_) => ReachKeepsTabs(w, step);
    case Disconnect(on) => DisconnectKeepsTabs(w, on);
    case _ => QuietKeepsTabs(w, step);
  }

  lemma QuietKeepsTabs(w: World, step: Step)
    requires w.Ok() && Enabled(w, step)
    requires !step.NewTab? && !step.CloseFront? && !step.Switch? && !step.Reach? && !step.Disconnect?
    ensures TabsKept(w.desk, step, Next(w, step).desk)
  {
    hide LinksOk, TokensOk, TabsHeld, Sheet.Holds;
    var d := w.desk;
    match step {
      case GoTo(index) => GoKeepsTabs(w, index);
      case Walk(move) =>
        if |d.tabs| >= 2 {
          GoKeepsTabs(w, Remainder(d.front + move + |d.tabs|, |d.tabs|));
        }
      case Returns(token, result) => ResultGoesHome(w, token, result);
      case _ =>
    }
    KeptInPlace(d, step, Next(w, step).desk);
  }

  lemma NewKeepsTabs(w: World, step: Step)
    requires w.Ok() && step.NewTab?
    ensures TabsKept(w.desk, step, Next(w, step).desk)
  {}

  /** Going through a connection that is held changes no tab. */
  lemma {:induction false} ThroughTabs(d: Desk, key: int)
    requires d.Sound() && Holding(d.links, key)
    ensures d.Through(key).tabs == d.tabs
  {}

  lemma {:induction false} AimTabs(d: Desk, on: int)
    requires d.Sound() && Holding(d.links, on)
    ensures d.Aim(on).tabs ==
            if d.tabs[d.front].Holds() then d.tabs + [NewSheet(on)] else d.tabs[d.front := d.tabs[d.front].(on := on)]
  {
    hide Desk.Through, Holding;
    if d.tabs[d.front].Holds() {
      ThroughTabs(d.(tabs := d.tabs + [NewSheet(on)], front := |d.tabs|), on);
    } else {
      ThroughTabs(d.(tabs := d.tabs[d.front := d.tabs[d.front].(on := on)]), on);
    }
  }

  lemma SwitchedKeepsTabs(w: World, step: Step)
    requires w.Ok() && step.Switch? && Enabled(w, step)
    ensures TabsKept(w.desk, step, Next(w, step).desk)
  {
    var d := w.desk;
    assert d.Sound() && Next(w, step).desk == d.Switched(step.connection, step.number);
    hide *;
    SwitchedTabs(d, step.connection, step.number);
    AimedKeepsTabs(d, step, d.minted + 1, d.Switched(step.connection, step.number));
  }

  lemma {:induction false} SwitchedTabs(d: Desk, connection: Connection, number: nat)
    requires d.Sound()
    ensures d.Switched(connection, number).tabs ==
            if d.tabs[d.front].Holds() then d.tabs + [NewSheet(d.minted + 1)]
            else d.tabs[d.front := d.tabs[d.front].(on := d.minted + 1)]
  {
    hide Desk.Aim, Holding, Sheet.Holds;
    var before, added := d.Troubled(), Link(d.minted + 1, number, connection, UNREAD);
    var fronted := before.(links := before.links + [added], linked := |before.links|, minted := d.minted + 1);
    LinkHeld(fronted.links, fronted.linked);
    AimTabs(fronted, d.minted + 1);
  }

  lemma ReachKeepsTabs(w: World, step: Step)
    requires w.Ok() && step.Reach?
    ensures TabsKept(w.desk, step, Next(w, step).desk)
  {
    var d := w.desk;
    assert d.Sound();
    hide World.Ok, Desk.Aim, Holding, Sheet.Holds;
    if 0 <= step.at < |d.links| {
      LinkHeld(d.links, step.at);
      AimTabs(d, d.links[step.at].id);
      if !InFrontAlready(d, step.at) {
        var d' := d.Reach(step.at);
        assert d'.tabs == d.Aim(d.links[step.at].id).tabs && Next(w, step).desk == d';
        hide Next, Desk.Reach, TabsKept, InFrontAlready;
        AimedKeepsTabs(d, step, d.links[step.at].id, d');
      } else {
        KeptInPlace(d, step, d);
      }
    } else {
      KeptInPlace(d, step, d);
    }
  }

  /** The tab in front was aimed at another connection, or a new one was opened for it. */
  lemma {:induction false} AimedKeepsTabs(d: Desk, step: Step, on: int, d': Desk)
    requires d.Sound() && d'.Sound()
    requires step.Switch? || (step.Reach? && 0 <= step.at < |d.links| && !InFrontAlready(d, step.at))
    requires on == if step.Switch? then d.minted + 1 else d.links[step.at].id
    requires d'.tabs ==
             if d.tabs[d.front].Holds() then d.tabs + [NewSheet(on)] else d.tabs[d.front := d.tabs[d.front].(on := on)]
    ensures TabsKept(d, step, d')
  {
    hide Sheet.Holds;
  }

  lemma CloseTakes(w: World)
    requires w.Ok() && |w.desk.tabs| > 1
    ensures w.desk.CloseSheet(w.desk.front).tabs == Removed(w.desk.tabs, w.desk.front)
  {
    hide LinksOk, TabsHeld, TokensOk;
    var d := w.desk;
    var kept := Removed(d.tabs, d.front);
    RemovedKeeps(d.tabs, d.front, d.links, d.runs, w.waiting);
    ThroughAgrees(d.(tabs := kept, front := Min(d.front, |kept| - 1)));
  }

  lemma CloseKeepsTabs(w: World)
    requires w.Ok()
    ensures TabsKept(w.desk, CloseFront, w.desk.CloseSheet(w.desk.front))
  {
    hide LinksOk, TabsHeld, TokensOk, Sheet.Holds;
    var d := w.desk;
    if |d.tabs| > 1 {
      CloseTakes(w);
      var kept := Removed(d.tabs, d.front);
      hide Desk.CloseSheet;
      var o := Origins(d, CloseFront);
      assert forall i :: 0 <= i < |kept| ==> o[i] == (if i < d.front then i else i + 1) && kept[i] == d.tabs[o[i]];
    }
  }

  lemma GoKeepsTabs(w: World, index: int)
    requires w.Ok()
    ensures w.desk.OnSheet(index).tabs == w.desk.tabs
  {}

  /** The place one walks to, and the place one walks back to. */
  lemma WalkedBack(n: int, front: int, step: int)
    requires n > 0 && 0 <= front < n && -n <= step <= n
    ensures var to := Remainder(front + step + n, n); 0 <= to < n && Remainder(to - step + n, n) == front
  {
    var from := front + step + n;
    var to := if from < n then from else if from < 2 * n then from - n else from - 2 * n;
    RemainderIs(from, n, to);
    RemainderIs(to - step + n, n, front);
  }

  lemma RemainderIs(a: int, n: int, r: int)
    requires 0 <= r < n && 0 <= a && (a == r || a == r + n || a == r + 2 * n)
    ensures Remainder(a, n) == r
  {}

  /** Going to a tab changes what is in front and nothing else. */
  lemma GoIs(w: World, index: int)
    requires w.Ok() && 0 <= index < |w.desk.tabs|
    ensures
      var d, d' := w.desk, w.desk.OnSheet(index);
      d' == d.(front := index, linked := d'.linked) && Agrees(d') && World(d', w.waiting).Ok()
  {
    hide LinksOk, TabsHeld, TokensOk;
    if index != w.desk.front {
      ThroughAgrees(w.desk.(front := index));
    }
  }

  /** Going to a tab and back leaves everything as it was. */
  lemma GoBack(w: World, index: int)
    requires w.Ok() && 0 <= index < |w.desk.tabs|
    ensures w.desk.OnSheet(index).OnSheet(w.desk.front) == w.desk
  {
    var d := w.desk;
    GoIs(w, index);
    var there := World(d.OnSheet(index), w.waiting);
    GoIs(there, d.front);
    var back := there.desk.OnSheet(d.front);
    hide TabsHeld, TokensOk, Desk.OnSheet;
    assert back.links == d.links && back.tabs == d.tabs && back.front == d.front;
    assert d.links[back.linked].id == d.tabs[d.front].on == d.links[d.linked].id;
    assert back.linked == d.linked;
  }

  /** Walking along the tabs and as far back leaves everything as it was, the ends included. */
  lemma WalkBack(w: World, step: int)
    requires w.Ok() && -|w.desk.tabs| <= step <= |w.desk.tabs|
    ensures w.desk.WalkSheets(step).WalkSheets(-step) == w.desk
  {
    var d, n := w.desk, |w.desk.tabs|;
    assert d.Sound() && 0 <= d.front < n;
    hide *;
    if n < 2 {
      WalkNowhere(d, step);
      WalkNowhere(d, -step);
    } else {
      var to := WalkThere(d, step);
      GoThere(w, to);
      GoBack(w, to);
      WalkHome(d, step, to, d.OnSheet(to));
    }
  }

  lemma WalkThere(d: Desk, step: int) returns (to: int)
    requires d.Sound() && |d.tabs| >= 2 && -|d.tabs| <= step <= |d.tabs|
    ensures 0 <= to < |d.tabs| && d.WalkSheets(step) == d.OnSheet(to)
    ensures Remainder(to - step + |d.tabs|, |d.tabs|) == d.front
  {
    hide Remainder, Desk.OnSheet;
    to := Remainder(d.front + step + |d.tabs|, |d.tabs|);
    WalkedBack(|d.tabs|, d.front, step);
  }

  lemma WalkHome(d: Desk, step: int, to: int, there: Desk)
    requires d.Sound() && |d.tabs| >= 2 && there.Sound() && there.front == to && |there.tabs| == |d.tabs|
    requires Remainder(to - step + |d.tabs|, |d.tabs|) == d.front
    ensures there.WalkSheets(-step) == there.OnSheet(d.front)
  {
    hide Remainder, Desk.OnSheet;
    assert there.front + -step + |there.tabs| == to - step + |d.tabs|;
  }

  lemma GoThere(w: World, index: int)
    requires w.Ok() && 0 <= index < |w.desk.tabs|
    ensures w.desk.OnSheet(index).front == index && w.desk.OnSheet(index).tabs == w.desk.tabs
  {
    GoIs(w, index);
    hide *;
  }

  lemma WalkNowhere(d: Desk, step: int)
    requires d.Sound() && |d.tabs| < 2
    ensures d.WalkSheets(step) == d
  {}

  lemma DisconnectKeepsTabs(w: World, on: int)
    requires w.Ok()
    ensures TabsKept(w.desk, Disconnect(on), w.desk.Disconnect(on))
  {
    hide LinksOk, TokensOk, TabsHeld, Sheet.Holds, Desk.Disconnect, Desk.FrontWithout, FirstLink, Survivors, Without;
    var d := w.desk;
    if FirstLink(d.links, on).Some? && |d.links| > 1 {
      DisconnectTabs(w, on);
      SurvivorsAre(d.tabs, on);
      var d' := d.Disconnect(on);
      if Without(d.tabs, on) != [] {
        assert Origins(d, Disconnect(on)) == Survivors(d.tabs, on) && d'.tabs == Without(d.tabs, on);
      } else {
        assert Origins(d, Disconnect(on)) == [|d.tabs|] && |d'.tabs| == 1 && Opened(d, Disconnect(on), d', d'.tabs[0]);
      }
    } else {
      assert d.Disconnect(on) == d by {
        DisconnectNothing(d, on);
      }
      KeptInPlace(d, Disconnect(on), d);
    }
  }

  lemma {:induction false} DisconnectNothing(d: Desk, on: int)
    requires d.Sound() && (FirstLink(d.links, on).None? || |d.links| == 1)
    ensures d.Disconnect(on) == d
  {}

  // ---------------------------------------------------------------------------------------
  // What disconnecting takes
  // ---------------------------------------------------------------------------------------

  /** Exactly the tabs that were on the connection go. */
  lemma {:induction false} DisconnectTabs(w: World, on: int)
    requires w.Ok() && FirstLink(w.desk.links, on).Some? && |w.desk.links| > 1
    ensures var d, d' := w.desk, w.desk.Disconnect(on);
            if Without(d.tabs, on) == [] then |d'.tabs| == 1 && d'.tabs[0] == NewSheet(d'.links[d'.linked].id)
            else d'.tabs == Without(d.tabs, on) && d'.front == d.FrontWithout(on)
    ensures w.desk.Disconnect(on).links ==
            var at := FirstLink(w.desk.links, on).value;
            w.desk.links[..at] + w.desk.links[at + 1..]
  {
    hide LinksOk, TokensOk, Holding, Desk.FrontWithout, TabsHeld;
    var d := w.desk;
    var at := FirstLink(d.links, on).value;
    var e := d.DropLink(at);
    DropLinkKeeps(d.links, d.minted, at);
    KeptHeld(d.tabs, d.links, e.links, on);
    var kept := Without(d.tabs, on);
    if kept != [] {
      FrontInside(e, on);
      SameFront(d, e, on);
      ThroughAgrees(e.(tabs := kept, front := e.FrontWithout(on)));
    }
  }

  lemma SameFront(d: Desk, e: Desk, on: int)
    requires d.Sound() && e.Sound() && d.tabs == e.tabs && d.front == e.front
    ensures d.FrontWithout(on) == e.FrontWithout(on)
  {}

  /** The nearest tab at or before a place that is not on a connection. */
  predicate Nearest(tabs: seq<Sheet>, place: int, on: int, j: int) {
    0 <= j <= place < |tabs| && tabs[j].on != on && forall k :: j < k <= place ==> tabs[k].on == on
  }

  lemma {:induction false} NearestIsLast(tabs: seq<Sheet>, place: int, on: int, j: int)
    requires Nearest(tabs, place, on, j)
    ensures var before := Without(tabs[..place + 1], on); before != [] && before[|before| - 1] == tabs[j]
    decreases place - j
  {
    assert tabs[..place + 1][..place] == tabs[..place];
    if j < place {
      NearestIsLast(tabs, place - 1, on, j);
    }
  }

  /** The nearest tab that is left comes to the front. */
  lemma {:induction false} NearestInFront(d: Desk, d': Desk, on: int, j: int)
    requires d.Sound() && d'.Sound() && Nearest(d.tabs, d.front, on, j)
    requires Without(d.tabs, on) != [] ==> d'.tabs == Without(d.tabs, on) && d'.front == d.FrontWithout(on)
    ensures d'.tabs[d'.front] == d.tabs[j]
  {
    hide Without, Nearest;
    NearestKept(d.tabs, d.front, on, j);
  }

  lemma {:induction false} NearestKept(tabs: seq<Sheet>, place: int, on: int, j: int)
    requires Nearest(tabs, place, on, j)
    ensures var before, kept := |Without(tabs[..place + 1], on)|, Without(tabs, on);
            0 < before <= |kept| && kept[before - 1] == tabs[j]
  {
    WithoutPrefix(tabs, place + 1, on);
    NearestIsLast(tabs, place, on, j);
  }

  /** After disconnecting, the tab in front is the nearest survivor at or before the one that
      was, so it is that one itself when its connection was kept; when nothing before it
      survived, it is the first that did, and when nothing did, an empty one. Then the
      connection in front is the one that tab is on. */
  lemma {:induction false} DisconnectFront(w: World, on: int, j: int)
    requires w.Ok() && FirstLink(w.desk.links, on).Some? && |w.desk.links| > 1
    ensures var d, d' := w.desk, w.desk.Disconnect(on);
            && Agrees(d')
            && (Nearest(d.tabs, d.front, on, j) ==> d'.tabs[d'.front] == d.tabs[j])
            && ((forall k :: 0 <= k <= d.front ==> d.tabs[k].on == on) ==> d'.front == 0)
            && (d.links[d.linked].id != on ==>
                  d'.tabs[d'.front] == d.tabs[d.front] && d'.links[d'.linked] == d.links[d.linked])
  {
    var d, d' := w.desk, w.desk.Disconnect(on);
    DisconnectTabs(w, on);
    DisconnectKeeps(w, on);
    assert LinksOk(d.links, d.minted);
    hide LinksOk, TokensOk, Holding, TabsHeld, Desk.Disconnect, Without, FirstLink;
    if Nearest(d.tabs, d.front, on, j) {
      NearestInFront(d, d', on, j);
    }
    if d.links[d.linked].id != on {
      NearestInFront(d, d', on, d.front);
      FrontLinkKept(d, d', on);
    }
    if forall k :: 0 <= k <= d.front ==> d.tabs[k].on == on {
      NoneBefore(d.tabs, d.front + 1, on);
    }
  }

  lemma {:induction false} NoneBefore(tabs: seq<Sheet>, n: nat, on: int)
    requires n <= |tabs| && forall k :: 0 <= k < n ==> tabs[k].on == on
    ensures Without(tabs[..n], on) == []
  {
    if n > 0 {
      assert tabs[..n][..n - 1] == tabs[..n - 1];
      NoneBefore(tabs, n - 1, on);
    }
  }

  lemma {:induction false} FrontLinkKept(d: Desk, d': Desk, on: int)
    requires d.Sound() && d'.Sound() && LinksOk(d.links, d.minted) && FirstLink(d.links, on).Some?
    requires d.links[d.linked].id != on
    requires d'.links == (var at := FirstLink(d.links, on).value; d.links[..at] + d.links[at + 1..])
    requires d'.links[d'.linked].id == d.links[d.linked].id
    ensures d'.links[d'.linked] == d.links[d.linked]
  {}

  // ---------------------------------------------------------------------------------------
  // Closing a tab that is not in front
  // ---------------------------------------------------------------------------------------

  /** Where the tab in front after closing was before. */
  function FrontWas(d: Desk, index: int): int
    requires d.Sound() && 0 <= index < |d.tabs| && |d.tabs| > 1
  {
    var front := d.CloseSheet(index).front;
    if front < index then front else front + 1
  }

  lemma CloseFrontIs(d: Desk, index: int)
    requires d.Sound() && 0 <= index < |d.tabs| && |d.tabs| > 1
    ensures d.CloseSheet(index).front == if index <= d.front then Min(index, |d.tabs| - 2) else d.front
  {}

  /** Closing another tab leaves the front one in front exactly when that other is after it,
      or is the one just before it. */
  lemma CloseLeavesFront(d: Desk, index: int)
    requires d.Sound() && 0 <= index < |d.tabs| && index != d.front
    ensures FrontWas(d, index) == d.front <==> index > d.front || index + 1 == d.front
  {}

  /** Three tabs, the last in front: closing the first puts the second in front. */
  lemma CloseMovesFront()
    ensures exists d: Desk :: d.Sound() && |d.tabs| == 3 && d.front == 2 && FrontWas(d, 0) == 1
  {
    var d := Desk([Link(1, 1, Connection("", "", ""), UNREAD)], 0, [NewSheet(1), NewSheet(1), NewSheet(1)], 2, 1, 0);
    CloseFrontIs(d, 0);
    assert d.Sound() && |d.tabs| == 3 && d.front == 2 && FrontWas(d, 0) == 1;
  }
}
