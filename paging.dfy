/**
 * The channel branch of `getChatMembers` asks for the participants page by
 * page in a do-while loop: each request has limit 200 and starts at the
 * number of users received so far, and the loop goes on while fewer users
 * than the channel's member count, and fewer than 1000, have arrived.
 * This module is the reference definition of that loop's run.
 */
module Paging {
  import opened Wrappers
  import opened Members

  const PageLimit: nat := 200
  const MaxMembers: nat := 1000

  /** `channels.getParticipants` for one channel: the page starting at an
      offset, or `None` when the call fails. */
  type PageSource = nat -> Option<seq<User>>

  datatype Outcome =
    | Finished   // the loop condition became false
    | Failed     // a request failed, which rejects the whole handler
    | Hangs      // an empty page while both bounds are unmet: the same request repeats forever

  /** The offsets requested, the pages received, and how the loop ended. */
  datatype Run = Run(offsets: seq<nat>, pages: seq<seq<User>>, outcome: Outcome)

  function Flatten(pages: seq<seq<User>>): seq<User> {
    if pages == [] then [] else pages[0] + Flatten(pages[1..])
  }

  lemma {:induction false} FlattenAppend(pages: seq<seq<User>>, page: seq<User>)
    ensures Flatten(pages + [page]) == Flatten(pages) + page
  {
    if pages == [] {
      assert pages + [page] == [page];
    } else {
      assert (pages + [page])[1..] == pages[1..] + [page];
      FlattenAppend(pages[1..], page);
    }
  }

  lemma FlattenSingle(page: seq<User>)
    ensures Flatten([page]) == page
  {
    assert [page][1..] == [];
  }

  /** The loop goes on after a page that brought the count to `received`. */
  predicate Continues(received: nat, memberCount: int) {
    received < memberCount && received < MaxMembers
  }

  /** The run of the loop from a request at `offset` on. */
  function Paging(source: PageSource, memberCount: int, offset: nat): Run
    requires offset < MaxMembers
    decreases MaxMembers - offset
  {
    match source(offset)
    case None => Run([offset], [], Failed)
    case Some(page) =>
      var next := offset + |page|;
      if !Continues(next, memberCount) then Run([offset], [page], Finished)
      else if page == [] then Run([offset], [page], Hangs)
      else
        var rest := Paging(source, memberCount, next);
        Run([offset] + rest.offsets, [page] + rest.pages, rest.outcome)
  }

  /** The requests so far put in front of the rest of a run. */
  function Join(offsets: seq<nat>, pages: seq<seq<User>>, rest: Run): Run {
    Run(offsets + rest.offsets, pages + rest.pages, rest.outcome)
  }

  lemma JoinJoin(o1: seq<nat>, p1: seq<seq<User>>, o2: seq<nat>, p2: seq<seq<User>>, rest: Run)
    ensures Join(o1, p1, Join(o2, p2, rest)) == Join(o1 + o2, p1 + p2, rest)
  {
    assert o1 + (o2 + rest.offsets) == (o1 + o2) + rest.offsets;
    assert p1 + (p2 + rest.pages) == (p1 + p2) + rest.pages;
  }

  /** A failed request after the requests `offsets` ends the run there. */
  lemma PagingRoundFails(source: PageSource, memberCount: int, run: Run, offsets: seq<nat>,
                         pages: seq<seq<User>>, offset: nat)
    requires offset < MaxMembers && source(offset).None?
    requires run == Join(offsets, pages, Paging(source, memberCount, offset))
    ensures run == Run(offsets + [offset], pages, Failed)
  {
    assert pages + [] == pages;
  }

  /** One round of the loop after the requests `offsets`: the page at `offset`
      either ends the run, because a bound is met or because it is empty, or is
      followed by the run from the next offset. */
  lemma PagingRound(source: PageSource, memberCount: int, run: Run, offsets: seq<nat>,
                    pages: seq<seq<User>>, offset: nat, page: seq<User>)
    requires offset < MaxMembers && source(offset) == Some(page)
    requires run == Join(offsets, pages, Paging(source, memberCount, offset))
    ensures var next := offset + |page|;
      && (!Continues(next, memberCount) ==> run == Run(offsets + [offset], pages + [page], Finished))
      && (Continues(next, memberCount) && page == [] ==> run == Run(offsets + [offset], pages + [page], Hangs))
      && (Continues(next, memberCount) && page != [] ==>
            run == Join(offsets + [offset], pages + [page], Paging(source, memberCount, next)))
  {
    var next := offset + |page|;
    if Continues(next, memberCount) && page != [] {
      JoinJoin(offsets, pages, [offset], [page], Paging(source, memberCount, next));
    }
  }

  /** Users received before the request at position `i`. */
  function ReceivedBefore(run: Run, i: nat): seq<User>
    requires i <= |run.pages|
  {
    Flatten(run.pages[..i])
  }

  /** At least one request is made; every request but a failed last one brings
      a page; and each request starts at the number of users received so far. */
  lemma {:induction false} PagingOffsets(source: PageSource, memberCount: int, offset: nat)
    requires offset < MaxMembers
    ensures var r := Paging(source, memberCount, offset);
      && |r.offsets| >= 1
      && |r.pages| == (if r.outcome == Failed then |r.offsets| - 1 else |r.offsets|)
      && forall i :: 0 <= i < |r.offsets| ==> i <= |r.pages| && r.offsets[i] == offset + |ReceivedBefore(r, i)|
    decreases MaxMembers - offset
  {
    var r := Paging(source, memberCount, offset);
    match source(offset)
    case None =>
    case Some(page) =>
      var next := offset + |page|;
      if Continues(next, memberCount) && page != [] {
        PagingOffsets(source, memberCount, next);
        var rest := Paging(source, memberCount, next);
        forall i | 0 <= i < |r.offsets|
          ensures i <= |r.pages| && r.offsets[i] == offset + |ReceivedBefore(r, i)|
        {
          if i > 0 {
            assert r.offsets[i] == rest.offsets[i - 1];
            assert r.pages[..i] == [page] + rest.pages[..i - 1];
            assert Flatten(r.pages[..i]) == page + Flatten(rest.pages[..i - 1]);
          } else {
            assert r.pages[..0] == [];
          }
        }
      } else {
        assert r.pages[..0] == [];
      }
  }

  /** Every request after the first is made only while both bounds are unmet,
      so every offset stays below 1000. */
  lemma {:induction false} PagingContinues(source: PageSource, memberCount: int, offset: nat)
    requires offset < MaxMembers
    ensures var r := Paging(source, memberCount, offset);
      && (forall i :: 0 < i < |r.offsets| ==> Continues(r.offsets[i], memberCount))
      && (forall i :: 0 <= i < |r.offsets| ==> r.offsets[i] < MaxMembers)
    decreases MaxMembers - offset
  {
    match source(offset)
    case None =>
    case Some(page) =>
      var next := offset + |page|;
      if Continues(next, memberCount) && page != [] {
        PagingContinues(source, memberCount, next);
        PagingOffsets(source, memberCount, next);
      }
  }

  /** Users received in the whole run. */
  function Received(run: Run): seq<User> {
    Flatten(run.pages)
  }

  /** After a page that lets the loop go on, the run ends as the run from the
      next offset ends: same outcome, same last page, same total received. */
  lemma PagingTail(source: PageSource, memberCount: int, offset: nat, page: seq<User>)
    requires offset < MaxMembers && source(offset) == Some(page)
    requires page != [] && Continues(offset + |page|, memberCount)
    ensures var r, rest := Paging(source, memberCount, offset), Paging(source, memberCount, offset + |page|);
      && r.outcome == rest.outcome
      && offset + |Received(r)| == offset + |page| + |Received(rest)|
      && |r.pages| == |rest.pages| + 1
      && (|rest.pages| > 0 ==> r.pages[|r.pages| - 1] == rest.pages[|rest.pages| - 1])
  {
    var rest := Paging(source, memberCount, offset + |page|);
    var pages := [page] + rest.pages;
    assert pages[1..] == rest.pages;
    assert Flatten(pages) == page + Flatten(rest.pages);
  }

  /** A finished run stopped because the member count or 1000 was reached;
      a hanging run stopped on an empty page with both bounds unmet, and only then. */
  lemma {:induction false} PagingEnds(source: PageSource, memberCount: int, offset: nat)
    requires offset < MaxMembers
    ensures var r := Paging(source, memberCount, offset);
      var total := offset + |Received(r)|;
      && (r.outcome == Finished ==> !Continues(total, memberCount))
      && (r.outcome != Failed ==> |r.pages| > 0)
      && (r.outcome == Hangs <==>
            r.outcome != Failed && r.pages[|r.pages| - 1] == [] && Continues(total, memberCount))
    decreases MaxMembers - offset
  {
    match source(offset)
    case None =>
    case Some(page) =>
      var next := offset + |page|;
      if !Continues(next, memberCount) {
        FlattenSingle(page);
        assert Paging(source, memberCount, offset) == Run([offset], [page], Finished);
      } else if page == [] {
        FlattenSingle(page);
        assert Paging(source, memberCount, offset) == Run([offset], [page], Hangs);
      } else {
        PagingEnds(source, memberCount, next);
        PagingTail(source, memberCount, offset, page);
      }
  }

  /** Every page before the last request is a full page of 200. */
  predicate FullPages(r: Run) {
    forall i :: 0 <= i < |r.offsets| - 1 ==> i < |r.pages| && |r.pages[i]| >= PageLimit
  }

  /** With full pages, `offset + 200 * (requests - 1) < 1000`: from offset 0 a
      channel is read in at most five requests. */
  lemma {:induction false} PagingFullPages(source: PageSource, memberCount: int, offset: nat)
    requires offset < MaxMembers
    requires FullPages(Paging(source, memberCount, offset))
    ensures var r := Paging(source, memberCount, offset);
      offset + PageLimit * (|r.offsets| - 1) < MaxMembers
    decreases MaxMembers - offset
  {
    var r := Paging(source, memberCount, offset);
    match source(offset)
    case None =>
    case Some(page) =>
      var next := offset + |page|;
      if Continues(next, memberCount) && page != [] {
        var rest := Paging(source, memberCount, next);
        assert r.offsets == [offset] + rest.offsets && r.pages == [page] + rest.pages;
        PagingOffsets(source, memberCount, next);
        forall i | 0 <= i < |rest.offsets| - 1
          ensures i < |rest.pages| && |rest.pages[i]| >= PageLimit
        {
          assert i + 1 < |r.offsets| - 1;
          assert i + 1 < |r.pages| && |r.pages[i + 1]| >= PageLimit;
          assert r.pages[i + 1] == rest.pages[i];
        }
        assert FullPages(rest);
        PagingFullPages(source, memberCount, next);
        if |rest.offsets| >= 1 {
          assert |r.pages[0]| >= PageLimit;
        }
      }
  }

  /** From offset 0 with full pages at most five requests are made. */
  lemma AtMostFiveRequests(source: PageSource, memberCount: int)
    requires FullPages(Paging(source, memberCount, 0))
    ensures |Paging(source, memberCount, 0).offsets| <= 5
  {
    PagingFullPages(source, memberCount, 0);
  }

  /** Every page `channels.getParticipants` answers holds at most the 200 users
      asked for. */
  ghost predicate PagesAtMost(source: PageSource) {
    forall o: nat :: source(o).Some? ==> |source(o).value| <= PageLimit
  }

  /** 1000 bounds the offsets, not the total: the last page may still bring up
      to 200 users on top of 999, so fewer than 1200 users are received. */
  lemma {:induction false} PagingReceivedBound(source: PageSource, memberCount: int, offset: nat)
    requires offset < MaxMembers && PagesAtMost(source)
    ensures offset + |Received(Paging(source, memberCount, offset))| < MaxMembers + PageLimit
    decreases MaxMembers - offset
  {
    match source(offset)
    case None =>
    case Some(page) =>
      var next := offset + |page|;
      if !Continues(next, memberCount) || page == [] {
        FlattenSingle(page);
      } else {
        PagingReceivedBound(source, memberCount, next);
        PagingTail(source, memberCount, offset, page);
      }
  }

  /** Every page answered is a full page of 200 users. */
  ghost predicate PagesFull(source: PageSource) {
    forall o: nat :: source(o).Some? ==> |source(o).value| == PageLimit
  }

  /** With full pages, starting at a multiple of 200, the offsets land on 1000
      exactly, so at most 1000 users are received. */
  lemma {:induction false} PagingFullPagesCap(source: PageSource, memberCount: int, offset: nat)
    requires offset < MaxMembers && offset % PageLimit == 0 && PagesFull(source)
    ensures offset + |Received(Paging(source, memberCount, offset))| <= MaxMembers
    decreases MaxMembers - offset
  {
    match source(offset)
    case None =>
    case Some(page) =>
      var next := offset + |page|;
      if !Continues(next, memberCount) || page == [] {
        FlattenSingle(page);
      } else {
        PagingFullPagesCap(source, memberCount, next);
        PagingTail(source, memberCount, offset, page);
      }
  }

  /** Pages of 199 users in a channel of 5000 members: six requests are made,
      at offsets 0, 199, 398, 597, 796 and 995, and 1194 users are received. */
  lemma PagingOvershoot(u: User)
    ensures var r := Paging(o => Some(seq(199, _ => u)), 5000, 0);
      && r.offsets == [0, 199, 398, 597, 796, 995]
      && r.outcome == Finished
      && |Received(r)| == 1194
  {
    var source: PageSource := o => Some(seq(199, _ => u));
    var page := seq(199, _ => u);
    FlattenSingle(page);
    var r5 := Paging(source, 5000, 995);
    assert r5 == Run([995], [page], Finished);
    var r4 := Paging(source, 5000, 796);
    PagingTail(source, 5000, 796, page);
    var r3 := Paging(source, 5000, 597);
    PagingTail(source, 5000, 597, page);
    var r2 := Paging(source, 5000, 398);
    PagingTail(source, 5000, 398, page);
    var r1 := Paging(source, 5000, 199);
    PagingTail(source, 5000, 199, page);
    var r0 := Paging(source, 5000, 0);
    PagingTail(source, 5000, 0, page);
    assert r0.offsets == [0] + r1.offsets;
    assert r1.offsets == [199] + r2.offsets;
    assert r2.offsets == [398] + r3.offsets;
    assert r3.offsets == [597] + r4.offsets;
    assert r4.offsets == [796] + r5.offsets;
  }
}
