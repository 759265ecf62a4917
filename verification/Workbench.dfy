/** The workbench as it is held: a list of connections and a list of tabs, and a copy of the
    front one of each that is worked on and written back. */
module Workbenches {
  import opened Options
  import opened Strings
  import opened Desks

  class Workbench {
    var link: Link
    var links: seq<Link>
    var linked: int
    var worksheet: Sheet
    var sheets: seq<Sheet>
    var sheet: int
    var minted: nat
    var runs: nat

    /** The workbench the program starts with: one connection and one empty tab on it. */
    constructor (connection: Connection)
      ensures Now() == Desk([Link(1, 1, connection, UNREAD.(loading := true))], 0, [NewSheet(1)], 0, 1, 0)
    {
      var first := Link(1, 1, connection, UNREAD.(loading := true));
      link, links, linked := first, [first], 0;
      worksheet, sheets, sheet := NewSheet(1), [NewSheet(1)], 0;
      minted, runs := 1, 0;
    }

    /** Every open connection, with the one in front as it is now rather than as it was last
        written back. */
    function EachLink(): (r: seq<Link>)
      reads this
      ensures |r| == |links|
    {
      if 0 <= linked < |links| then links[linked := link] else links
    }

    function EachSheet(): (r: seq<Sheet>)
      reads this
      ensures |r| == |sheets|
    {
      if 0 <= sheet < |sheets| then sheets[sheet := worksheet] else sheets
    }

    function LinkOf(key: int): Option<nat>
      reads this
    {
      FirstLink(EachLink(), key)
    }

    function Now(): Desk
      reads this
    {
      Desk(EachLink(), linked, EachSheet(), sheet, minted, runs)
    }

    method StowLink()
      modifies this`links
      ensures Now() == old(Now())
      ensures links == EachLink()
    {
      if linked < 0 || linked >= |links| {
        return;
      }
      links := links[linked := link];
    }

    method Stow()
      modifies this`links, this`sheets
      ensures Now() == old(Now())
      ensures links == EachLink() && sheets == EachSheet()
    {
      StowLink();
      if sheet < 0 || sheet >= |sheets| {
        return;
      }
      sheets := sheets[sheet := worksheet];
    }

    method WroteLink(key: int, written: Link)
      requires Now().Sound()
      modifies this`links, this`link
      ensures match old(LinkOf(key))
              case Some(at) => Now() == old(Now()).(links := old(EachLink())[at := written])
              case None => Now() == old(Now())
    {
      var found := LinkOf(key);
      if found.None? {
        return;
      }
      var at := found.value;
      if at == linked {
        link := written;
        return;
      }
      links := links[at := written];
    }

    method Through(key: int)
      requires Now().Sound()
      modifies this
      ensures Now() == old(Now()).Through(key)
    {
      if key == link.id {
        return;
      }
      var found := LinkOf(key);
      if found.None? {
        worksheet := worksheet.(on := link.id);
        return;
      }
      StowLink();
      linked, link := found.value, EachLink()[found.value];
    }

    method OnSheet(index: int)
      requires Now().Sound()
      modifies this
      ensures Now() == old(Now()).OnSheet(index)
    {
      if index < 0 || index >= |sheets| || index == sheet {
        return;
      }
      Stow();
      sheet := index;
      worksheet := sheets[index];
      Through(worksheet.on);
    }

    method WalkSheets(step: int)
      requires Now().Sound()
      modifies this
      ensures Now() == old(Now()).WalkSheets(step)
    {
      if |sheets| < 2 {
        return;
      }
      OnSheet(Remainder(sheet + step + |sheets|, |sheets|));
    }

    method OpenSheet(added: Sheet)
      requires Now().Sound()
      modifies this
      ensures Now() == old(Now()).OpenSheet(added)
    {
      Stow();
      sheets := sheets + [added];
      sheet := |sheets| - 1;
      worksheet := added;
      assert Now() == old(Now()).(tabs := old(EachSheet()) + [added], front := old(|sheets|));
      Through(added.on);
    }

    method CloseSheet(index: int)
      requires Now().Sound()
      modifies this
      ensures Now() == old(Now()).CloseSheet(index)
    {
      if index < 0 || index >= |sheets| {
        return;
      }
      hide Desk.Through;
      Stow();
      sheets := sheets[index := sheets[index].Finished()];
      if |sheets| == 1 {
        var emptied := NewSheet(link.id);
        sheets := [emptied];
        sheet := 0;
        worksheet := emptied;
        return;
      }
      var kept := sheets[..index] + sheets[index + 1..];
      assert kept == old(Now()).tabs[..index] + old(Now()).tabs[index + 1..];
      sheets := kept;
      sheet := Min(Max(sheet, 0), |kept| - 1);
      if index < sheet || sheet == index {
        sheet := Min(index, |kept| - 1);
      }
      worksheet := sheets[sheet];
      ghost var d := old(Now());
      assert Now() == d.(tabs := kept, front := if index <= d.front then Min(index, |kept| - 1) else d.front);
      Through(worksheet.on);
      assert Now() == d.CloseSheet(index);
    }

    method Disconnected(on: int)
      requires Now().Sound()
      modifies this
      ensures Now() == old(Now()).Disconnect(on)
    {
      var found := LinkOf(on);
      if found.None? || |links| == 1 {
        return;
      }
      hide Desk.DropTabs;
      var at := found.value;
      Stow();
      links := links[..at] + links[at + 1..];
      if at < linked {
        linked := linked - 1;
      } else if at == linked {
        linked := Min(at, |links| - 1);
      }
      linked := Min(Max(linked, 0), |links| - 1);
      link := links[linked];
      assert EachLink() == old(Now()).links[..at] + old(Now()).links[at + 1..];
      assert Now() == old(Now()).DropLink(at);
      Closed(on);
    }

    /** Drops the tabs that belonged to a connection that has gone. */
    method Closed(on: int)
      requires Now().Sound()
      modifies this
      ensures Now() == old(Now()).DropTabs(on)
    {
      hide Desk.Through, Desk.DropTabs, Desk.FrontWithout, Without;
      ghost var d, held := Now(), EachLink();
      var kept, front := KeptTabs(on);
      if |kept| == 0 {
        kept := kept + [NewSheet(link.id)];
      }
      sheets := kept;
      sheet := Min(Max(front, 0), |kept| - 1);
      assert d.links[d.linked] == link;
      DropTabsIs(d, on, kept, sheet);
      worksheet := kept[sheet];
      assert EachSheet() == kept && EachLink() == held;
      assert Now() == d.(tabs := kept, front := sheet);
      Through(worksheet.on);
    }

    method KeptTabs(on: int) returns (kept: seq<Sheet>, front: int)
      requires Now().Sound()
      ensures kept == Without(Now().tabs, on)
      ensures front == Now().FrontWithout(on)
    {
      var each := EachSheet();
      kept, front := [], 0;
      WithoutNothing(each, on);
      ghost var before := 0;
      hide Without;
      for i := 0 to |each|
        invariant kept == Without(each[..i], on)
        invariant before == |Without(each[..Min(i, sheet + 1)], on)| && front == Max(before - 1, 0)
      {
        WithoutNext(each, i, on);
        if each[i].on != on {
          if i <= sheet {
            front := |kept|;
          }
          kept := kept + [each[i]];
        }
        if i <= sheet {
          before := |kept|;
        }
      }
      assert each[..|each|] == each;
    }

    /** The smallest number that no session on the same profile and database has. The search
        has no end written into it, and ends because each number it passes is some session's. */
    method NextNumber(connection: Connection) returns (number: nat)
      ensures Smallest(EachLink(), connection, number)
      ensures number <= |links| + 1
    {
      var each := EachLink();
      var taken: set<nat> := {};
      for i := 0 to |each|
        invariant forall n: nat :: n in taken <==> Taken(each[..i], connection, n)
        invariant |taken| <= i
      {
        TakenNext(each, i, connection);
        if each[i].StandsWith(connection) {
          taken := taken + {each[i].number};
        }
      }
      assert each[..|each|] == each;
      number := 1;
      while true
        invariant number >= 1
        invariant forall n :: 1 <= n < number ==> n in taken
        invariant number - 1 <= |taken|
        decreases |taken| + 1 - number
      {
        if number !in taken {
          return;
        }
        Pigeonhole(taken, number);
        number := number + 1;
      }
    }

    method Added(connection: Connection) returns (at: int)
      requires Now().Sound()
      modifies this`links, this`minted
      ensures exists number: nat ::
                && Smallest(old(EachLink()), connection, number) && number <= |old(links)| + 1
                && Now() == old(Now()).(links := old(EachLink()) + [Link(old(minted) + 1, number, connection, UNREAD)],
                                        minted := old(minted) + 1)
      ensures at == |links| - 1 == |old(links)| && links == EachLink()
    {
      StowLink();
      minted := minted + 1;
      var number := NextNumber(connection);
      ghost var each := EachLink();
      links := links + [Link(minted, number, connection, UNREAD)];
      assert EachLink() == each + [Link(minted, number, connection, UNREAD)];
      return |links| - 1;
    }

    /** A connection that was asked for came back, open or not. */
    method Switched(connection: Option<Connection>)
      requires Now().Sound()
      modifies this
      ensures connection.None? ==> Now() == old(Now()).Troubled()
      ensures connection.Some? ==> exists number: nat ::
                && Smallest(old(EachLink()), connection.value, number) && number <= |old(links)| + 1
                && Now() == old(Now()).Switched(connection.value, number)
    {
      hide Desk.Aim, Smallest;
      link := link.(contents := link.contents.(loading := false));
      if connection.None? {
        return;
      }
      ghost var before := Now();
      assert before == old(Now()).Troubled();
      SameNumbers(old(EachLink()), before.links, connection.value);
      var at := Added(connection.value);
      ghost var number: nat :| Smallest(before.links, connection.value, number) && number <= |before.links| + 1
        && Now() == before.(links := before.links + [Link(before.minted + 1, number, connection.value, UNREAD)],
                            minted := before.minted + 1);
      ghost var listed := EachLink();
      linked, link := at, EachLink()[at];
      assert EachLink() == listed;
      ghost var added := Now();
      assert added == before.(links := before.links + [Link(before.minted + 1, number, connection.value, UNREAD)],
                              linked := |before.links|, minted := before.minted + 1);
      Aim(link.id);
      ghost var aimed := Now();
      link := link.(contents := link.contents.(loading := true, failure := ""));
      assert Now() == aimed.WithFront(aimed.links[aimed.linked].contents.(loading := true, failure := ""));
      assert Now() == old(Now()).Switched(connection.value, number);
    }

    method Aim(on: int)
      requires Now().Sound()
      modifies this
      ensures Now() == old(Now()).Aim(on)
    {
      if worksheet.results.Some? || worksheet.inflight || TrimSpace(worksheet.statement) != "" {
        OpenSheet(NewSheet(on));
        return;
      }
      worksheet := worksheet.(on := on);
      Through(on);
    }

    method Reach(at: int)
      requires Now().Sound()
      modifies this
      ensures Now() == old(Now()).Reach(at)
    {
      var each := EachLink();
      if at < 0 || at >= |each| {
        return;
      }
      var open := each[at];
      if open.id == link.id && worksheet.on == open.id {
        return;
      }
      Aim(open.id);
    }

    /** The connection a read came from, or the one in front when that is no longer held. */
    function LinkedSheet(on: int): Link
      requires Now().Sound()
      reads this
    {
      match LinkOf(on)
      case Some(at) => EachLink()[at]
      case None => link
    }

    method Load(on: int, reading: Reading)
      requires Now().Sound()
      modifies this
      ensures Now() == old(Now()).Load(on, reading)
    {
      var read := LinkedSheet(on);
      read := read.(contents := Loaded(read.contents, reading));
      WroteLink(on, read);
    }

    /** Runs what a turn does against the connection the turn belongs to, and leaves whatever
        is in front in front. */
    method Answer(on: int, answering: Contents -> Contents)
      requires Now().Sound()
      modifies this
      ensures Now() == old(Now()).Answer(on, answering)
    {
      var found := LinkOf(on);
      if found.None? {
        return;
      }
      var at := found.value;
      if at == linked {
        link := link.(contents := answering(link.contents));
        return;
      }
      var front := linked;
      StowLink();
      linked, link := at, links[at];
      link := link.(contents := answering(link.contents));
      StowLink();
      linked, link := front, links[front];
    }

    method Type(text: string)
      requires Now().Sound()
      modifies this`worksheet
      ensures Now() == old(Now()).Type(text)
    {
      worksheet := worksheet.(statement := text);
    }

    method Run() returns (token: nat)
      requires Now().Sound()
      modifies this`worksheet, this`runs
      ensures Now() == old(Now()).Run() && token == runs
    {
      runs := runs + 1;
      worksheet := worksheet.(inflight := true, token := runs);
      return runs;
    }

    /** Puts a result in the tab that asked for it. */
    method Returned(token: nat, result: QueryResult)
      requires Now().Sound()
      modifies this`worksheet, this`sheets
      ensures Now() == old(Now()).Return(token, result)
    {
      if token == worksheet.token {
        worksheet := worksheet.Finished().(results := Some(result));
        return;
      }
      ghost var each := EachSheet();
      for i := 0 to |sheets|
        invariant Now() == old(Now()) && worksheet == old(worksheet) && sheets == old(sheets)
        invariant forall j :: 0 <= j < i ==> each[j].token != token
      {
        if i == sheet || sheets[i].token != token {
          continue;
        }
        FirstTabIs(each, token, i);
        sheets := sheets[i := sheets[i].Finished().(results := Some(result))];
        assert EachSheet() == each[i := each[i].Finished().(results := Some(result))];
        return;
      }
    }
  }

  lemma {:induction false} FirstTabIs(tabs: seq<Sheet>, token: nat, i: nat)
    requires i < |tabs| && tabs[i].token == token && forall j :: 0 <= j < i ==> tabs[j].token != token
    ensures FirstTab(tabs, token) == Some(i)
  {}

  lemma TakenNext(links: seq<Link>, i: nat, connection: Connection)
    requires i < |links|
    ensures forall n: nat :: Taken(links[..i + 1], connection, n) <==>
              Taken(links[..i], connection, n) || (links[i].StandsWith(connection) && links[i].number == n)
  {
    var before, after := links[..i], links[..i + 1];
    assert forall j :: 0 <= j < i ==> after[j] == before[j];
    assert after[i] == links[i];
    forall n: nat
      ensures Taken(after, connection, n) <==>
              Taken(before, connection, n) || (links[i].StandsWith(connection) && links[i].number == n)
    {
      if Taken(before, connection, n) {
        var j :| 0 <= j < i && before[j].StandsWith(connection) && before[j].number == n;
        assert after[j] == before[j];
      }
    }
  }

  /** A set that holds every number below one it also holds has at least that many. */
  lemma Pigeonhole(taken: set<nat>, number: nat)
    requires number >= 1 && forall n :: 1 <= n <= number ==> n in taken
    ensures number <= |taken|
    decreases number
  {
    if number == 1 {
      assert {1} <= taken;
      CardinalityGrows({1}, taken);
    } else {
      var rest := taken - {number};
      Pigeonhole(rest, number - 1);
    }
  }

  lemma CardinalityGrows(a: set<nat>, b: set<nat>)
    requires a <= b
    ensures |a| <= |b|
    decreases a
  {
    if a != {} {
      var x :| x in a;
      CardinalityGrows(a - {x}, b - {x});
    }
  }

  /** What is read out of a server has nothing to do with how sessions are numbered. */
  lemma SameNumbers(a: seq<Link>, b: seq<Link>, connection: Connection)
    requires |a| == |b| && forall i :: 0 <= i < |a| ==> a[i].connection == b[i].connection && a[i].number == b[i].number
    ensures forall n: nat :: Taken(a, connection, n) <==> Taken(b, connection, n)
    ensures forall n: nat :: Smallest(a, connection, n) <==> Smallest(b, connection, n)
  {}
}
