/** The files of an inbound mail that are kept, and those dropped (backend/apps/email_channel/content.py:327-371). */
module InboundFiles {

  const MAX_ATTACHMENTS: nat := 50

  /** A part that isn't body: a file or not, of a type that is allowed or not, and its size. */
  datatype Part = Part(isFile: bool, blocked: bool, size: nat)

  datatype Fate = Kept | Unnamed | NotAllowed | TooMany | TooLarge

  /** What the parts before left: how many were kept, and their total size. */
  datatype Sums = Sums(count: nat, total: nat)

  function FateOf(p: Part, sums: Sums, limit: int): Fate {
    if !p.isFile then Unnamed
    else if p.blocked then NotAllowed
    else if sums.count >= MAX_ATTACHMENTS then TooMany
    else if sums.total + p.size > limit then TooLarge
    else Kept
  }

  function After(parts: seq<Part>, limit: int): Sums {
    if parts == [] then Sums(0, 0)
    else
      var p, sums := parts[|parts| - 1], After(parts[..|parts| - 1], limit);
      if FateOf(p, sums, limit).Kept? then Sums(sums.count + 1, sums.total + p.size) else sums
  }

  function FateAt(parts: seq<Part>, k: nat, limit: int): Fate
    requires k < |parts|
  {
    FateOf(parts[k], After(parts[..k], limit), limit)
  }

  function TotalSize(parts: seq<Part>, kept: seq<nat>): nat
    requires forall k :: 0 <= k < |kept| ==> kept[k] < |parts|
  {
    if kept == [] then 0 else TotalSize(parts, kept[..|kept| - 1]) + parts[kept[|kept| - 1]].size
  }

  predicate Increasing(places: seq<nat>, bound: nat) {
    && (forall k :: 0 <= k < |places| ==> places[k] < bound)
    && (forall j, k :: 0 <= j < k < |places| ==> places[j] < places[k])
  }

  /** Each part so far is in one of the lists, the one its fate says. */
  ghost predicate Sorted(parts: seq<Part>, n: nat, limit: int, kept: seq<nat>, dropped: seq<nat>)
    requires n <= |parts|
  {
    && Increasing(kept, n) && Increasing(dropped, n)
    && forall k: nat :: k < n ==> (k in kept <==> FateAt(parts, k, limit).Kept?) && (k in dropped <==> !(k in kept))
  }

  lemma OneMore(parts: seq<Part>, n: nat, limit: int)
    requires n < |parts|
    ensures var sums := After(parts[..n], limit);
      After(parts[..n + 1], limit)
      == if FateAt(parts, n, limit).Kept? then Sums(sums.count + 1, sums.total + parts[n].size) else sums
  {
    assert parts[..n + 1][..n] == parts[..n];
  }

  lemma SortedOneMore(parts: seq<Part>, n: nat, limit: int, kept: seq<nat>, dropped: seq<nat>)
    requires n < |parts| && Sorted(parts, n, limit, kept, dropped)
    ensures if FateAt(parts, n, limit).Kept? then Sorted(parts, n + 1, limit, kept + [n], dropped)
            else Sorted(parts, n + 1, limit, kept, dropped + [n])
  {}

  lemma TotalOneMore(parts: seq<Part>, kept: seq<nat>, n: nat)
    requires n < |parts| && forall k :: 0 <= k < |kept| ==> kept[k] < |parts|
    ensures TotalSize(parts, kept + [n]) == TotalSize(parts, kept) + parts[n].size
  {}

  /** Where the loop is after `n` parts. */
  ghost predicate Reached(parts: seq<Part>, n: nat, limit: int, kept: seq<nat>, dropped: seq<nat>, total: nat)
    requires n <= |parts|
  {
    && Sorted(parts, n, limit, kept, dropped) && |kept| + |dropped| == n
    && Sums(|kept|, total) == After(parts[..n], limit) && total == TotalSize(parts, kept)
    && |kept| <= MAX_ATTACHMENTS && (kept != [] ==> total <= limit)
  }

  lemma NoneReached(parts: seq<Part>, limit: int)
    ensures Reached(parts, 0, limit, [], [], 0)
  {}

  lemma KeptOneMore(parts: seq<Part>, n: nat, limit: int, kept: seq<nat>, dropped: seq<nat>, total: nat)
    requires n < |parts| && Reached(parts, n, limit, kept, dropped, total)
    requires FateOf(parts[n], Sums(|kept|, total), limit).Kept?
    ensures Reached(parts, n + 1, limit, kept + [n], dropped, total + parts[n].size)
  {
    OneMore(parts, n, limit);
    SortedOneMore(parts, n, limit, kept, dropped);
    TotalOneMore(parts, kept, n);
  }

  lemma DroppedOneMore(parts: seq<Part>, n: nat, limit: int, kept: seq<nat>, dropped: seq<nat>, total: nat)
    requires n < |parts| && Reached(parts, n, limit, kept, dropped, total)
    requires !FateOf(parts[n], Sums(|kept|, total), limit).Kept?
    ensures Reached(parts, n + 1, limit, kept, dropped + [n], total)
  {
    OneMore(parts, n, limit);
    SortedOneMore(parts, n, limit, kept, dropped);
  }

  /**
   `extract_attachments`: every part is kept or reported, in order, and what is kept is
   within both limits, whatever the mail holds.
   */
  method ExtractAttachments(parts: seq<Part>, limit: int) returns (kept: seq<nat>, dropped: seq<nat>)
    ensures Sorted(parts, |parts|, limit, kept, dropped)
    ensures |kept| <= 50 && (kept != [] ==> TotalSize(parts, kept) <= limit)
    ensures |kept| + |dropped| == |parts|
  {
    kept, dropped := [], [];
    var total: nat := 0;
    var n := 0;
    NoneReached(parts, limit);
    while n < |parts|
      invariant n <= |parts| && Reached(parts, n, limit, kept, dropped, total)
    {
      var p := parts[n];
      if FateOf(p, Sums(|kept|, total), limit).Kept? {
        KeptOneMore(parts, n, limit, kept, dropped, total);
        total := total + p.size;
        kept := kept + [n];
      } else {
        DroppedOneMore(parts, n, limit, kept, dropped, total);
        dropped := dropped + [n];
      }
      n := n + 1;
    }
    AllReached(parts, limit, kept, dropped, total);
  }

  lemma AllReached(parts: seq<Part>, limit: int, kept: seq<nat>, dropped: seq<nat>, total: nat)
    requires Reached(parts, |parts|, limit, kept, dropped, total)
    ensures Sorted(parts, |parts|, limit, kept, dropped)
    ensures |kept| <= MAX_ATTACHMENTS && (kept != [] ==> TotalSize(parts, kept) <= limit)
    ensures |kept| + |dropped| == |parts|
  {}

  /** The places of the first `n` parts that are kept, in order. */
  ghost predicate KeptUpTo(parts: seq<Part>, n: nat, limit: int, kept: seq<nat>)
    requires n <= |parts|
  {
    && Increasing(kept, n)
    && forall k: nat :: k < n ==> (k in kept <==> FateAt(parts, k, limit).Kept?)
  }

  lemma LastIsKept(parts: seq<Part>, n: nat, limit: int, kept: seq<nat>)
    requires 0 < n <= |parts| && KeptUpTo(parts, n, limit, kept) && FateAt(parts, n - 1, limit).Kept?
    ensures kept != [] && kept[|kept| - 1] == n - 1
    ensures KeptUpTo(parts, n - 1, limit, kept[..|kept| - 1])
  {
    assert n - 1 in kept;
    var i :| 0 <= i < |kept| && kept[i] == n - 1;
    var last := |kept| - 1;
    assert i == last;
    assert kept == kept[..last] + [n - 1];
  }

  lemma LastIsDropped(parts: seq<Part>, n: nat, limit: int, kept: seq<nat>)
    requires 0 < n <= |parts| && KeptUpTo(parts, n, limit, kept) && !FateAt(parts, n - 1, limit).Kept?
    ensures KeptUpTo(parts, n - 1, limit, kept)
  {
    forall j | 0 <= j < |kept| ensures kept[j] < n - 1 {
      assert kept[j] in kept;
    }
  }

  /** The running sums are the number and the total size of the files kept. */
  lemma {:induction false} SumsAre(parts: seq<Part>, n: nat, limit: int, kept: seq<nat>)
    requires n <= |parts| && KeptUpTo(parts, n, limit, kept)
    ensures After(parts[..n], limit) == Sums(|kept|, TotalSize(parts, kept))
  {
    if n > 0 {
      OneMore(parts, n - 1, limit);
      if FateAt(parts, n - 1, limit).Kept? {
        LastIsKept(parts, n, limit, kept);
        SumsAre(parts, n - 1, limit, kept[..|kept| - 1]);
      } else {
        LastIsDropped(parts, n, limit, kept);
        SumsAre(parts, n - 1, limit, kept);
      }
    }
  }

  /** The places before `k`. */
  function PlacesBefore(places: seq<nat>, k: nat): seq<nat> {
    if places != [] && places[|places| - 1] >= k then PlacesBefore(places[..|places| - 1], k) else places
  }

  lemma {:induction false} PlacesBeforeAre(places: seq<nat>, k: nat, n: nat)
    requires Increasing(places, n)
    ensures Increasing(PlacesBefore(places, k), n) && Increasing(PlacesBefore(places, k), k)
    ensures forall j: nat :: j < k ==> (j in PlacesBefore(places, k) <==> j in places)
  {
    if places != [] && places[|places| - 1] >= k {
      var front := places[..|places| - 1];
      PlacesBeforeAre(front, k, n);
      assert places == front + [places[|places| - 1]];
    }
  }

  /** A part is kept exactly when it is a file of an allowed type that both limits still have room for. */
  lemma KeptIffItFits(parts: seq<Part>, limit: int, kept: seq<nat>, dropped: seq<nat>, k: nat)
    requires k < |parts| && Sorted(parts, |parts|, limit, kept, dropped)
    ensures var before := PlacesBefore(kept, k);
      && Increasing(before, k)
      && (k in kept <==>
          && parts[k].isFile && !parts[k].blocked
          && |before| < 50 && TotalSize(parts, before) + parts[k].size <= limit)
  {
    PlacesBeforeAre(kept, k, |parts|);
    SumsAre(parts, k, limit, PlacesBefore(kept, k));
  }

  /** A file dropped for its size would have taken the files kept before it over the limit. */
  lemma DroppedWouldNotFit(parts: seq<Part>, limit: int, kept: seq<nat>, dropped: seq<nat>, k: nat)
    requires k < |parts| && Sorted(parts, |parts|, limit, kept, dropped) && FateAt(parts, k, limit).TooLarge?
    ensures var before := PlacesBefore(kept, k);
      && Increasing(before, k) && k in dropped
      && TotalSize(parts, before) + parts[k].size > limit
      && (limit >= 0 ==> TotalSize(parts, before) <= limit)
  {
    PlacesBeforeAre(kept, k, |parts|);
    SumsAre(parts, k, limit, PlacesBefore(kept, k));
    TotalIsWithin(parts[..k], limit);
  }

  lemma {:induction false} TotalIsWithin(parts: seq<Part>, limit: int)
    ensures After(parts, limit).count <= MAX_ATTACHMENTS
    ensures After(parts, limit).total <= if limit >= 0 then limit else 0
  {
    if parts != [] {
      TotalIsWithin(parts[..|parts| - 1], limit);
    }
  }
}
