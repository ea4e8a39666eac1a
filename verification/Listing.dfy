/**
  Paged listing. Both servers hand out a listing in pages: a page carries entries and, if
  there is more to come, a token for the next page. The listing is taken over one snapshot,
  which the server may split into any pages up to the requested size.
 */
module Listing {
  import opened Wrappers
  import opened Cluster
  import opened Rebuild

  const KUBE_API_PAGE_SIZE: nat := 500
  const VOLUMES_PER_REQUEST: nat := 200

  /** A page; its token says where the next one starts and how many pages came before. */
  datatype Token = Token(offset: nat, page: nat)

  datatype Page<T> = Page(entries: seq<T>, next: Option<Token>)

  function Least(a: nat, b: nat): nat {
    if a < b then a else b
  }

  /**
    The server's answer for a token: up to `limit` entries. `paging` is how many it cares to
    hand out on each page, which may be few or none, with a token even if nothing is left;
    after that it hands out full pages, and no token with the last entry.
   */
  function PageAt<T>(snapshot: seq<T>, limit: nat, paging: seq<nat>, token: Token): (p: Page<T>)
    requires token.offset <= |snapshot| && limit > 0
    ensures |p.entries| <= limit
  {
    var wanted := if token.page < |paging| then Least(paging[token.page], limit) else limit;
    var end := Least(token.offset + wanted, |snapshot|);
    Page(snapshot[token.offset..end],
         if token.page < |paging| || end < |snapshot| then Some(Token(end, token.page + 1)) else None)
  }

  /** How far a listing is from its last page: pages that `paging` still decides, then entries. */
  function PagesToCome<T>(snapshot: seq<T>, paging: seq<nat>, token: Token): (nat, nat)
    requires token.offset <= |snapshot|
  {
    (if token.page < |paging| then |paging| - token.page else 0, |snapshot| - token.offset)
  }

  /** A page goes on where the ones before it ended. */
  lemma {:induction false} PageGoesOn<T>(snapshot: seq<T>, limit: nat, paging: seq<nat>, token: Token)
    requires token.offset <= |snapshot| && limit > 0
    ensures var page := PageAt(snapshot, limit, paging, token);
            var end := token.offset + |page.entries|;
            && end <= |snapshot| && snapshot[..token.offset] + page.entries == snapshot[..end]
            && (page.next.None? ==> end == |snapshot|)
            && (page.next.Some? ==>
                  && page.next.value.offset == end
                  && var now, later := PagesToCome(snapshot, paging, token), PagesToCome(snapshot, paging, page.next.value);
                     later.0 < now.0 || (later.0 == now.0 && later.1 < now.1))
  {
  }

  /** The loop over continue tokens that every Kubernetes listing uses, for any pages that the server makes. */
  method ListPaged<T>(snapshot: seq<T>, paging: seq<nat>) returns (all: seq<T>)
    ensures all == snapshot
  {
    all := [];
    var token := Token(0, 0);
    while true
      invariant token.offset <= |snapshot| && all == snapshot[..token.offset]
      decreases PagesToCome(snapshot, paging, token).0, PagesToCome(snapshot, paging, token).1
    {
      var page := PageAt(snapshot, KUBE_API_PAGE_SIZE, paging, token);
      all := all + page.entries;
      match page.next {
        case Some(t) => token := t;
        case None => break;
      }
    }
  }

  method ListPods(w: World, s: PodSelector, paging: seq<nat>) returns (pods: seq<Pod>)
    ensures pods == Select(w.pods, s)
  {
    pods := ListPaged(Select(w.pods, s), paging);
  }

  /** The loop over volume pages, which runs until the server hands out no token. */
  method ListAllVolumes(snapshot: seq<Volume>, paging: seq<nat>) returns (volumes: seq<Volume>)
    ensures volumes == snapshot
  {
    volumes := [];
    var token := Some(Token(0, 0));
    while token.Some?
      invariant token.Some? ==> token.value.offset <= |snapshot| && volumes == snapshot[..token.value.offset]
      invariant token.None? ==> volumes == snapshot
      decreases token.Some?,
                if token.Some? then PagesToCome(snapshot, paging, token.value).0 else 0,
                if token.Some? then PagesToCome(snapshot, paging, token.value).1 else 0
    {
      var page := PageAt(snapshot, VOLUMES_PER_REQUEST, paging, token.value);
      volumes := volumes + page.entries;
      token := page.next;
    }
  }

  lemma {:induction false} UnhealthySplits(a: seq<Volume>, b: seq<Volume>, all: seq<Volume>, discarded: seq<Volume>)
    requires all == a + b
    ensures UnhealthyExcept(all, discarded) == UnhealthyExcept(a, discarded) + UnhealthyExcept(b, discarded)
    decreases |a|
  {
    if a == [] {
      assert all == b;
    } else {
      assert all[1..] == a[1..] + b;
      UnhealthySplits(a[1..], b, all[1..], discarded);
    }
  }

  /** Removing the discarded volumes page by page or at the end makes no difference. */
  lemma {:induction false} RetainCommutes(vs: seq<Volume>, discarded: seq<Volume>)
    ensures UnhealthyExcept(UnhealthyExcept(vs, []), discarded) == UnhealthyExcept(vs, discarded)
  {
    if vs != [] {
      RetainCommutes(vs[1..], discarded);
      if Unhealthy(vs[0]) {
        assert UnhealthyExcept(vs, [])[1..] == UnhealthyExcept(vs[1..], []);
      }
    }
  }

  lemma {:induction false} OneMoreUnhealthy(seen: seq<Volume>, v: Volume)
    ensures UnhealthyExcept(seen + [v], []) == UnhealthyExcept(seen, []) + if Unhealthy(v) then [v] else []
  {
    UnhealthySplits(seen, [v], seen + [v], []);
    assert UnhealthyExcept([v], []) == if Unhealthy(v) then [v] else [];
  }

  /** Adds the unhealthy volumes of one page to those found so far. */
  method AddUnhealthy(found: seq<Volume>, entries: seq<Volume>) returns (unhealthy: seq<Volume>)
    ensures unhealthy == found + UnhealthyExcept(entries, [])
  {
    unhealthy := found;
    ghost var seen: seq<Volume> := [];
    for i := 0 to |entries|
      invariant seen == entries[..i] && unhealthy == found + UnhealthyExcept(seen, [])
    {
      var volume := entries[i];
      OneMoreUnhealthy(seen, volume);
      seen := seen + [volume];
      if volume.status.Faulted? || volume.status.Degraded? {
        unhealthy := unhealthy + [volume];
      }
    }
    assert seen == entries;
  }

  method ListUnhealthyVolumes(snapshot: seq<Volume>, discarded: seq<Volume>, paging: seq<nat>) returns (unhealthy: seq<Volume>)
    ensures unhealthy == UnhealthyExcept(snapshot, discarded)
  {
    unhealthy := [];
    var token := Some(Token(0, 0));
    ghost var seen: seq<Volume> := [];
    while token.Some?
      invariant unhealthy == UnhealthyExcept(seen, [])
      invariant token.Some? ==> token.value.offset <= |snapshot| && seen == snapshot[..token.value.offset]
      invariant token.None? ==> seen == snapshot
      decreases token.Some?,
                if token.Some? then PagesToCome(snapshot, paging, token.value).0 else 0,
                if token.Some? then PagesToCome(snapshot, paging, token.value).1 else 0
    {
      var page := PageAt(snapshot, VOLUMES_PER_REQUEST, paging, token.value);
      PageGoesOn(snapshot, VOLUMES_PER_REQUEST, paging, token.value);
      UnhealthySplits(seen, page.entries, seen + page.entries, []);
      unhealthy := AddUnhealthy(unhealthy, page.entries);
      seen := seen + page.entries;
      token := page.next;
    }
    RetainCommutes(snapshot, discarded);
    unhealthy := UnhealthyExcept(unhealthy, discarded);
  }

  // ---------------------------------------------------------------- controller revisions

  datatype ControllerRevision = ControllerRevision(revision: int, labels: map<string, string>)

  datatype RevisionError = ControllerRevisionListEmpty | ControllerRevisionDoesntHaveHashLabel

  predicate NonAscending(rs: seq<ControllerRevision>) {
    forall i, j :: 0 <= i < j < |rs| ==> rs[i].revision >= rs[j].revision
  }

  lemma {:induction false} Inserted(sorted: seq<ControllerRevision>, k: nat, rev: ControllerRevision, r: seq<ControllerRevision>)
    requires k <= |sorted| && r == sorted[..k] + [rev] + sorted[k..]
    ensures multiset(r) == multiset(sorted) + multiset{rev}
  {
    assert sorted == sorted[..k] + sorted[k..];
  }

  lemma {:induction false} InsertedInOrder(sorted: seq<ControllerRevision>, k: nat, rev: ControllerRevision, r: seq<ControllerRevision>)
    requires NonAscending(sorted) && k <= |sorted| && r == sorted[..k] + [rev] + sorted[k..]
    requires (forall j :: 0 <= j < k ==> sorted[j].revision > rev.revision) && (k < |sorted| ==> sorted[k].revision <= rev.revision)
    ensures NonAscending(r)
  {
    assert forall i :: 0 <= i < |r| ==> r[i] == if i < k then sorted[i] else if i == k then rev else sorted[i - 1];
  }

  method InsertByRevision(sorted: seq<ControllerRevision>, rev: ControllerRevision)
    returns (r: seq<ControllerRevision>)
    requires NonAscending(sorted)
    ensures NonAscending(r) && multiset(r) == multiset(sorted) + multiset{rev}
  {
    var k := 0;
    while k < |sorted| && sorted[k].revision > rev.revision
      invariant k <= |sorted|
      invariant forall j :: 0 <= j < k ==> sorted[j].revision > rev.revision
    {
      k := k + 1;
    }
    r := sorted[..k] + [rev] + sorted[k..];
    Inserted(sorted, k, rev, r);
    InsertedInOrder(sorted, k, rev, r);
  }

  /** Sorts revisions, newest first; the order of equal numbers is left open. */
  method SortByRevision(rs: seq<ControllerRevision>) returns (sorted: seq<ControllerRevision>)
    ensures NonAscending(sorted) && multiset(sorted) == multiset(rs)
  {
    sorted := [];
    for i := 0 to |rs|
      invariant NonAscending(sorted) && multiset(sorted) == multiset(rs[..i])
    {
      assert rs[..i + 1] == rs[..i] + [rs[i]];
      sorted := InsertByRevision(sorted, rs[i]);
    }
    assert rs[..|rs|] == rs;
  }

  /**
    The hash taken as the latest one belongs to a revision with the highest number over all
    pages; the call fails exactly when there is no revision, or the one chosen has no hash.
   */
  method LatestControllerRevisionHash(revisions: seq<ControllerRevision>, hashLabelKey: string, paging: seq<nat>)
    returns (r: Result<string, RevisionError>)
    ensures r.Ok? ==> exists rev :: rev in revisions && hashLabelKey in rev.labels
                                    && rev.labels[hashLabelKey] == r.value
                                    && forall other :: other in revisions ==> other.revision <= rev.revision
    ensures r == Err(ControllerRevisionListEmpty) <==> revisions == []
    ensures r == Err(ControllerRevisionDoesntHaveHashLabel) ==>
              exists rev :: rev in revisions && hashLabelKey !in rev.labels
                            && forall other :: other in revisions ==> other.revision <= rev.revision
  {
    var all := ListPaged(revisions, paging);
    if all == [] {
      return Err(ControllerRevisionListEmpty);
    }
    var sorted := SortByRevision(all);
    assert |multiset(sorted)| == |multiset(all)|;
    var newest := sorted[0];
    assert newest in multiset(sorted);
    forall other | other in revisions
      ensures other.revision <= newest.revision
    {
      assert other in multiset(sorted);
      var i :| 0 <= i < |sorted| && sorted[i] == other;
    }
    if hashLabelKey in newest.labels {
      return Ok(newest.labels[hashLabelKey]);
    }
    return Err(ControllerRevisionDoesntHaveHashLabel);
  }
}
