/** Pagination (tools/pages.go): sections are drained by priority into pages of a fixed number of bytes, never
    cutting a rune. The number of pages is settled before the cuts are known. */
module Pages {
  import opened Readers

  predicate RuneStart(b: Byte) { b < 128 || 192 <= b }

  /** The last place up to `room` where a rune starts, or 0. */
  function Cut(s: Bytes, room: nat): (cut: nat)
    requires room < |s|
    ensures cut <= room && (cut > 0 ==> RuneStart(s[cut]))
  {
    if room == 0 || RuneStart(s[room]) then room else Cut(s, room - 1)
  }

  function Slice(s: Bytes, room: int): (r: Bytes)
    ensures r <= s && |r| <= (if room <= 0 then 0 else room)
  {
    if room <= 0 then [] else if |s| <= room then s else s[..Cut(s, room)]
  }

  method UTF8SafeSlice(s: Bytes, maxBytes: int) returns (r: Bytes)
    ensures r == Slice(s, maxBytes)
  {
    if maxBytes <= 0 {
      return [];
    }
    if |s| <= maxBytes {
      return s;
    }
    var cut := maxBytes;
    while cut > 0 && !RuneStart(s[cut])
      invariant 0 <= cut <= maxBytes && Cut(s, maxBytes) == Cut(s, cut)
    {
      cut := cut - 1;
    }
    return s[..cut];
  }

  // ---- One page ----

  /** The chunks one page takes from the sections, in order of priority. */
  function Drain(sections: seq<Bytes>, room: nat): (chunks: seq<Bytes>)
    ensures |chunks| == |sections|
    ensures forall j :: 0 <= j < |sections| ==> chunks[j] <= sections[j]
    decreases |sections|
  {
    if sections == [] then []
    else
      var chunk := Slice(sections[0], room);
      [chunk] + Drain(sections[1..], room - |chunk|)
  }

  /** What is left of the sections. */
  function Rest(sections: seq<Bytes>, chunks: seq<Bytes>): (rest: seq<Bytes>)
    requires |chunks| == |sections| && forall j :: 0 <= j < |sections| ==> chunks[j] <= sections[j]
    ensures |rest| == |sections|
    ensures forall j :: 0 <= j < |sections| ==> sections[j] == chunks[j] + rest[j]
  {
    seq(|sections|, j requires 0 <= j < |sections| => sections[j][|chunks[j]|..])
  }

  function Total(sections: seq<Bytes>): nat {
    if sections == [] then 0 else |sections[0]| + Total(sections[1..])
  }

  lemma DrainCons(section: Bytes, more: seq<Bytes>, room: nat)
    ensures Drain([section] + more, room) == [Slice(section, room)] + Drain(more, room - |Slice(section, room)|)
  {
    var all := [section] + more;
    assert all[0] == section && all[1..] == more;
  }

  lemma {:induction false} DrainNothing(sections: seq<Bytes>)
    ensures forall j :: 0 <= j < |sections| ==> Drain(sections, 0)[j] == []
  {
    if sections != [] {
      DrainNothing(sections[1..]);
    }
  }

  lemma {:induction false} DrainFits(sections: seq<Bytes>, room: nat)
    ensures Total(Drain(sections, room)) <= room
  {
    if sections != [] {
      var chunk := Slice(sections[0], room);
      DrainFits(sections[1..], room - |chunk|);
      assert Drain(sections, room)[1..] == Drain(sections[1..], room - |chunk|);
    }
  }

  lemma {:induction false} RestTotal(sections: seq<Bytes>, chunks: seq<Bytes>)
    requires |chunks| == |sections| && forall j :: 0 <= j < |sections| ==> chunks[j] <= sections[j]
    ensures Total(sections) == Total(chunks) + Total(Rest(sections, chunks))
    decreases |sections|
  {
    if sections != [] {
      RestTotal(sections[1..], chunks[1..]);
      assert Rest(sections, chunks)[1..] == Rest(sections[1..], chunks[1..]);
    }
  }

  // ---- All pages ----

  /** What is left after the first n pages, and the n-th page. */
  function RestAfter(sections: seq<Bytes>, size: nat, n: nat): (rest: seq<Bytes>)
    ensures |rest| == |sections|
  {
    if n == 0 then sections
    else
      var before := RestAfter(sections, size, n - 1);
      Rest(before, Drain(before, size))
  }

  function PageAt(sections: seq<Bytes>, size: nat, n: nat): seq<Bytes> {
    Drain(RestAfter(sections, size, n), size)
  }

  /** The j-th chunks of the first n pages, joined. */
  function Section(sections: seq<Bytes>, size: nat, n: nat, j: nat): Bytes
    requires j < |sections|
  {
    if n == 0 then [] else Section(sections, size, n - 1, j) + PageAt(sections, size, n - 1)[j]
  }

  lemma NextRest(sections: seq<Bytes>, size: nat, n: nat)
    ensures |PageAt(sections, size, n)| == |RestAfter(sections, size, n)| == |sections|
    ensures forall j :: 0 <= j < |sections| ==>
              RestAfter(sections, size, n)[j] == PageAt(sections, size, n)[j] + RestAfter(sections, size, n + 1)[j]
    ensures Total(RestAfter(sections, size, n)) == Total(PageAt(sections, size, n)) + Total(RestAfter(sections, size, n + 1))
  {
    hide Drain, Rest, Total;
    RestTotal(RestAfter(sections, size, n), PageAt(sections, size, n));
  }

  /** Every page carries at most `size` bytes. */
  lemma PageFits(sections: seq<Bytes>, size: nat, n: nat)
    ensures Total(PageAt(sections, size, n)) <= size
  {
    DrainFits(RestAfter(sections, size, n), size);
  }

  lemma NothingTaken(sections: seq<Bytes>, size: nat)
    ensures RestAfter(sections, size, 0) == sections
  {
  }

  /** Each section's chunks, joined over the pages, are a prefix of the section; the rest is what is lost. */
  lemma {:induction false} ChunksAreAPrefix(sections: seq<Bytes>, size: nat, n: nat, j: nat)
    requires j < |sections|
    ensures sections[j] == Section(sections, size, n, j) + RestAfter(sections, size, n)[j]
  {
    hide Drain, Rest, Total, RestAfter;
    if n == 0 {
      NothingTaken(sections, size);
      assert sections[j] == [] + sections[j];
    } else {
      ChunksAreAPrefix(sections, size, n - 1, j);
      NextRest(sections, size, n - 1);
    }
  }

  /** The room a page leaves unfilled. */
  function Unfilled(sections: seq<Bytes>, size: nat, n: nat): nat {
    PageFits(sections, size, n);
    size - Total(PageAt(sections, size, n))
  }

  function UnfilledBefore(sections: seq<Bytes>, size: nat, n: nat): nat {
    if n == 0 then 0 else UnfilledBefore(sections, size, n - 1) + Unfilled(sections, size, n - 1)
  }

  lemma OneMorePage(n: nat, size: nat)
    requires n > 0
    ensures n * size == (n - 1) * size + size
  {
  }

  lemma {:induction false} LeftAfter(sections: seq<Bytes>, size: nat, n: nat)
    ensures Total(sections) + UnfilledBefore(sections, size, n) == n * size + Total(RestAfter(sections, size, n))
  {
    hide Drain, Rest, Total, RestAfter, PageAt;
    if n == 0 {
      NothingTaken(sections, size);
    } else {
      LeftAfter(sections, size, n - 1);
      NextRest(sections, size, n - 1);
      OneMorePage(n, size);
    }
  }

  // ---- Nothing fits that is not taken ----

  lemma {:induction false} TotalOfNone(sections: seq<Bytes>)
    ensures Total(sections) == 0 <==> forall j :: 0 <= j < |sections| ==> sections[j] == []
  {
    if sections != [] { TotalOfNone(sections[1..]); }
  }

  /** When everything fits, everything is taken. */
  lemma {:induction false} AllFits(sections: seq<Bytes>, room: nat)
    requires Total(sections) <= room
    ensures Drain(sections, room) == sections
  {
    if sections != [] { AllFits(sections[1..], room - |sections[0]|); }
  }

  /** A byte is at most `gap` bytes after the start of its rune: 3 in UTF-8, 0 in ASCII. */
  ghost predicate Spaced(s: Bytes, gap: nat) {
    forall i :: 0 <= i < |s| ==> StartsNear(s, i, gap)
  }

  ghost predicate StartsNear(s: Bytes, i: nat, gap: nat)
    requires i < |s|
  {
    exists k :: i - gap <= k <= i && 0 <= k && RuneStart(s[k])
  }

  lemma {:induction false} CutIsNear(s: Bytes, room: nat, k: nat)
    requires k <= room < |s| && RuneStart(s[k])
    ensures Cut(s, room) >= k
  {
    if k < room && !RuneStart(s[room]) { CutIsNear(s, room - 1, k); }
  }

  lemma SliceWastes(s: Bytes, room: nat, gap: nat)
    requires Spaced(s, gap) && |Slice(s, room)| < |s|
    ensures room - |Slice(s, room)| <= gap
  {
    if room > 0 {
      assert StartsNear(s, room, gap);
      var k :| room - gap <= k <= room && 0 <= k && RuneStart(s[k]);
      CutIsNear(s, room, k);
    }
  }

  /** A suffix from the start of a rune, or from the very beginning, is as well spaced. */
  lemma SuffixSpaced(s: Bytes, cut: nat, gap: nat)
    requires Spaced(s, gap) && cut <= |s| && (0 < cut < |s| ==> RuneStart(s[cut]))
    ensures Spaced(s[cut..], gap)
  {
    forall i | 0 <= i < |s| - cut ensures StartsNear(s[cut..], i, gap) {
      assert StartsNear(s, cut + i, gap);
      var k :| cut + i - gap <= k <= cut + i && 0 <= k && RuneStart(s[k]);
      if k >= cut {
        assert RuneStart(s[cut..][k - cut]);
      } else {
        assert RuneStart(s[cut..][0]);
      }
    }
  }

  ghost predicate AllSpaced(sections: seq<Bytes>, gap: nat) {
    forall j :: 0 <= j < |sections| ==> Spaced(sections[j], gap)
  }

  lemma TailSpaced(sections: seq<Bytes>, gap: nat)
    requires AllSpaced(sections, gap) && sections != []
    ensures AllSpaced(sections[1..], gap)
  {
    hide Spaced;
    forall j | 0 <= j < |sections| - 1 ensures Spaced(sections[1..][j], gap) {
      assert sections[1..][j] == sections[j + 1];
    }
  }

  lemma DrainStep(sections: seq<Bytes>, room: nat)
    requires sections != []
    ensures var chunk := Slice(sections[0], room);
            var more := Drain(sections[1..], room - |chunk|);
            Drain(sections, room) == [chunk] + more && Total(Drain(sections, room)) == |chunk| + Total(more)
  {
    var chunk := Slice(sections[0], room);
    assert ([chunk] + Drain(sections[1..], room - |chunk|))[1..] == Drain(sections[1..], room - |chunk|);
  }

  /** A page that leaves something leaves at most `gap` bytes of room. */
  lemma {:induction false} DrainWastes(sections: seq<Bytes>, room: nat, gap: nat)
    requires AllSpaced(sections, gap) && Drain(sections, room) != sections
    ensures room - Total(Drain(sections, room)) <= gap
    decreases |sections|
  {
    hide Drain, Total, Slice, Spaced;
    if sections == [] {
      NoSections();
    } else {
      var chunk := Slice(sections[0], room);
      var more := Drain(sections[1..], room - |chunk|);
      DrainStep(sections, room);
      if |chunk| < |sections[0]| {
        SliceWastes(sections[0], room, gap);
      } else {
        assert chunk == sections[0];
        assert sections == [chunk] + sections[1..];
        TailSpaced(sections, gap);
        DrainWastes(sections[1..], room - |chunk|, gap);
      }
    }
  }

  /** Every chunk is a slice of its section, for the room there was. */
  lemma {:induction false} ChunkIsSlice(sections: seq<Bytes>, room: nat, j: nat) returns (left: nat)
    requires j < |sections|
    ensures Drain(sections, room)[j] == Slice(sections[j], left)
  {
    var chunk := Slice(sections[0], room);
    if j == 0 {
      left := room;
    } else {
      left := ChunkIsSlice(sections[1..], room - |chunk|, j - 1);
    }
  }

  lemma SliceEndsAtARune(s: Bytes, room: nat)
    ensures var cut := |Slice(s, room)|; 0 < cut < |s| ==> RuneStart(s[cut])
  {
  }

  lemma DrainKeepsSpaced(sections: seq<Bytes>, room: nat, gap: nat, j: nat)
    requires AllSpaced(sections, gap) && j < |sections|
    ensures Spaced(Rest(sections, Drain(sections, room))[j], gap)
  {
    hide Slice, Drain, Spaced;
    var left := ChunkIsSlice(sections, room, j);
    SliceEndsAtARune(sections[j], left);
    SuffixSpaced(sections[j], |Slice(sections[j], left)|, gap);
  }

  lemma {:induction false} RestSpaced(sections: seq<Bytes>, size: nat, n: nat, gap: nat)
    requires AllSpaced(sections, gap)
    ensures AllSpaced(RestAfter(sections, size, n), gap)
  {
    hide Drain, Rest, Spaced;
    if n > 0 {
      var before := RestAfter(sections, size, n - 1);
      RestSpaced(sections, size, n - 1, gap);
      forall j | 0 <= j < |sections| ensures Spaced(RestAfter(sections, size, n)[j], gap) {
        DrainKeepsSpaced(before, size, gap, j);
      }
    }
  }

  /** While anything is left after it, a page leaves at most `gap` bytes of room. */
  lemma PageWastes(sections: seq<Bytes>, size: nat, n: nat, gap: nat)
    requires AllSpaced(sections, gap) && Total(RestAfter(sections, size, n + 1)) > 0
    ensures Unfilled(sections, size, n) <= gap
  {
    var before := RestAfter(sections, size, n);
    RestSpaced(sections, size, n, gap);
    if Drain(before, size) == before {
      TotalOfNone(RestAfter(sections, size, n + 1));
    } else {
      DrainWastes(before, size, gap);
    }
  }

  // ---- How much is lost ----

  /** How many pages are built: the content's size over the page size, rounded up. */
  function PageCount(total: nat, size: nat): nat
    requires size > 0
  {
    (total + size - 1) / size
  }

  lemma CountIsTight(total: nat, size: nat)
    requires size > 0 && total > 0
    ensures var n := PageCount(total, size); n > 0 && (n - 1) * size < total <= n * size
  {
  }

  lemma {:induction false} LessIsLeft(sections: seq<Bytes>, size: nat, k: nat, n: nat)
    requires k <= n
    ensures Total(RestAfter(sections, size, n)) <= Total(RestAfter(sections, size, k))
    decreases n - k
  {
    hide RestAfter, PageAt, Total;
    if k < n {
      NextRest(sections, size, k);
      LessIsLeft(sections, size, k + 1, n);
    }
  }

  lemma {:induction false} UnfilledAtMost(sections: seq<Bytes>, size: nat, n: nat, gap: nat)
    requires AllSpaced(sections, gap) && Total(RestAfter(sections, size, n)) > 0
    ensures UnfilledBefore(sections, size, n) <= n * gap
  {
    hide RestAfter, PageAt, Total, Unfilled, AllSpaced;
    if n > 0 {
      LessIsLeft(sections, size, n - 1, n);
      UnfilledAtMost(sections, size, n - 1, gap);
      PageWastes(sections, size, n - 1, gap);
      OneMorePage(n, gap);
    }
  }

  /** At most `gap` bytes a page are lost: 3 in UTF-8. */
  lemma LossIsBounded(sections: seq<Bytes>, size: nat, gap: nat)
    requires AllSpaced(sections, gap) && size > 0 && Total(sections) > 0
    ensures var n := PageCount(Total(sections), size); Total(RestAfter(sections, size, n)) <= n * gap
  {
    hide RestAfter, Total, UnfilledBefore, AllSpaced, PageCount;
    var n := PageCount(Total(sections), size);
    CountIsTight(Total(sections), size);
    LeftAfter(sections, size, n);
    if Total(RestAfter(sections, size, n)) > 0 {
      UnfilledAtMost(sections, size, n, gap);
    } else {
      assert 0 <= n * gap;
    }
  }

  lemma {:induction false} SomethingLeft(sections: seq<Bytes>, size: nat, k: nat)
    requires size > 0 && k + 1 < PageCount(Total(sections), size)
    ensures Total(RestAfter(sections, size, k + 1)) > 0
  {
    hide RestAfter, Total, UnfilledBefore, PageCount;
    var n := PageCount(Total(sections), size);
    if Total(sections) == 0 {
      assert n <= 1 by { EmptyNeedsNone(size); }
    } else {
      CountIsTight(Total(sections), size);
      LeftAfter(sections, size, k + 1);
      assert (k + 1) * size <= (n - 1) * size by { Fewer(k + 1, n - 1, size); }
    }
  }

  lemma EmptyNeedsNone(size: nat)
    requires size > 0
    ensures PageCount(0, size) <= 1
  {
  }

  lemma Fewer(a: nat, b: nat, size: nat)
    requires a <= b
    ensures a * size <= b * size
  {
  }

  /** If every byte starts a rune nothing is lost, and every page but the last is full. */
  lemma AsciiLosesNothing(sections: seq<Bytes>, size: nat)
    requires AllSpaced(sections, 0) && size > 0 && Total(sections) > 0
    ensures var n := PageCount(Total(sections), size);
            && Total(RestAfter(sections, size, n)) == 0
            && forall k: nat :: k + 1 < n ==> Total(PageAt(sections, size, k)) == size
  {
    hide RestAfter, Total, AllSpaced, PageCount, PageAt;
    var n := PageCount(Total(sections), size);
    LossIsBounded(sections, size, 0);
    forall k: nat | k + 1 < n ensures Total(PageAt(sections, size, k)) == size {
      SomethingLeft(sections, size, k);
      PageWastes(sections, size, k, 0);
      PageFits(sections, size, k);
    }
  }

  /** What is left before the last page is lost unless it fits the last page. */
  lemma RestFitsTheLast(sections: seq<Bytes>, size: nat)
    requires size > 0 && Total(sections) > 0
    ensures var n := PageCount(Total(sections), size);
            n > 0 && (UnfilledBefore(sections, size, n - 1) <= n * size - Total(sections) ==>
                      Total(RestAfter(sections, size, n)) == 0)
  {
    hide RestAfter, Total, UnfilledBefore, PageCount;
    var n := PageCount(Total(sections), size);
    CountIsTight(Total(sections), size);
    LeftAfter(sections, size, n - 1);
    OneMorePage(n, size);
    NextRest(sections, size, n - 1);
    PageFits(sections, size, n - 1);
    if Total(RestAfter(sections, size, n - 1)) <= size {
      AllFits(RestAfter(sections, size, n - 1), size);
    }
  }

  /** Nothing is lost if the last page has `gap` bytes to spare for each page before it. */
  lemma SlackSuffices(sections: seq<Bytes>, size: nat, gap: nat)
    requires AllSpaced(sections, gap) && size > 0 && Total(sections) > 0
    requires var n := PageCount(Total(sections), size); (n - 1) * gap <= n * size - Total(sections)
    ensures Total(RestAfter(sections, size, PageCount(Total(sections), size))) == 0
  {
    hide RestAfter, Total, UnfilledBefore, PageCount, AllSpaced;
    var n := PageCount(Total(sections), size);
    CountIsTight(Total(sections), size);
    RestFitsTheLast(sections, size);
    if Total(RestAfter(sections, size, n)) > 0 {
      LessIsLeft(sections, size, n - 1, n);
      UnfilledAtMost(sections, size, n - 1, gap);
    }
  }

  // ---- Pages whose edges are between runes ----

  /** Position p of the joined sections is where a section or a rune starts, or the end. */
  predicate IsEdge(sections: seq<Bytes>, p: nat)
    decreases |sections|
  {
    if sections == [] then true
    else if p < |sections[0]| then p == 0 || RuneStart(sections[0][p])
    else IsEdge(sections[1..], p - |sections[0]|)
  }

  /** The sections without the first p bytes of all. */
  function DropBytes(sections: seq<Bytes>, p: nat): (r: seq<Bytes>)
    ensures |r| == |sections|
    decreases |sections|
  {
    if sections == [] then []
    else if p < |sections[0]| then [sections[0][p..]] + sections[1..]
    else [[]] + DropBytes(sections[1..], p - |sections[0]|)
  }

  lemma {:induction false} DropNothing(sections: seq<Bytes>)
    ensures DropBytes(sections, 0) == sections
  {
    if sections != [] && sections[0] == [] { DropNothing(sections[1..]); }
  }

  lemma {:induction false} DropTwice(sections: seq<Bytes>, p: nat, q: nat)
    ensures DropBytes(DropBytes(sections, p), q) == DropBytes(sections, p + q)
    decreases |sections|
  {
    if sections != [] {
      var left := DropBytes(sections, p);
      if p < |sections[0]| {
        assert left[0] == sections[0][p..] && left[1..] == sections[1..];
      } else {
        assert left[0] == [] && left[1..] == DropBytes(sections[1..], p - |sections[0]|);
        DropTwice(sections[1..], p - |sections[0]|, q);
      }
    }
  }

  /** An edge of the whole is an edge of what is left. */
  lemma {:induction false} EdgeOfRest(sections: seq<Bytes>, p: nat, q: nat)
    requires IsEdge(sections, p + q)
    ensures IsEdge(DropBytes(sections, p), q)
    decreases |sections|
  {
    if sections != [] {
      var left := DropBytes(sections, p);
      if p < |sections[0]| {
        assert left[0] == sections[0][p..] && left[1..] == sections[1..];
      } else {
        assert left[0] == [] && left[1..] == DropBytes(sections[1..], p - |sections[0]|);
        EdgeOfRest(sections[1..], p - |sections[0]|, q);
      }
    }
  }

  lemma {:induction false} DropTotal(sections: seq<Bytes>, p: nat)
    requires p <= Total(sections)
    ensures Total(DropBytes(sections, p)) == Total(sections) - p
    decreases |sections|
  {
    if sections != [] {
      var left := DropBytes(sections, p);
      if p < |sections[0]| {
        assert left[1..] == sections[1..];
      } else {
        assert left[1..] == DropBytes(sections[1..], p - |sections[0]|);
        DropTotal(sections[1..], p - |sections[0]|);
      }
    }
  }

  /** A page whose end is an edge is filled to the last byte, with the next bytes in order. */
  lemma {:induction false} DrainToEdge(sections: seq<Bytes>, room: nat)
    requires IsEdge(sections, room) && room <= Total(sections)
    ensures Rest(sections, Drain(sections, room)) == DropBytes(sections, room)
    decreases |sections|
  {
    hide Rest, Slice, Total, Drain, DropBytes, IsEdge;
    if sections == [] {
      NothingRests(room);
    } else {
      var chunk := Slice(sections[0], room);
      DrainStep(sections, room);
      EdgeStep(sections, room);
      RestStep(sections, chunk, Drain(sections[1..], room - |chunk|));
      if room < |sections[0]| {
        SliceAtEdge(sections[0], room);
        DrainNothing(sections[1..]);
        RestOfNothing(sections[1..], Drain(sections[1..], 0));
      } else {
        SliceOfAll(sections[0], room);
        TotalStep(sections);
        DrainToEdge(sections[1..], room - |chunk|);
      }
    }
  }

  lemma NothingRests(room: nat)
    ensures Rest([], Drain([], room)) == DropBytes([], room)
  {
  }

  lemma EdgeStep(sections: seq<Bytes>, p: nat)
    requires sections != []
    ensures var tail := sections[1..];
            if p < |sections[0]|
            then IsEdge(sections, p) == (p == 0 || RuneStart(sections[0][p]))
                 && DropBytes(sections, p) == [sections[0][p..]] + tail
            else IsEdge(sections, p) == IsEdge(tail, p - |sections[0]|)
                 && DropBytes(sections, p) == [[]] + DropBytes(tail, p - |sections[0]|)
  {
  }

  lemma TotalStep(sections: seq<Bytes>)
    requires sections != []
    ensures Total(sections) == |sections[0]| + Total(sections[1..])
  {
  }

  lemma RestStep(sections: seq<Bytes>, chunk: Bytes, more: seq<Bytes>)
    requires sections != [] && chunk <= sections[0] && |more| == |sections| - 1
    requires forall j :: 0 <= j < |more| ==> more[j] <= sections[1..][j]
    ensures Rest(sections, [chunk] + more) == [sections[0][|chunk|..]] + Rest(sections[1..], more)
  {
  }

  lemma RestOfNothing(sections: seq<Bytes>, chunks: seq<Bytes>)
    requires |chunks| == |sections| && forall j :: 0 <= j < |sections| ==> chunks[j] == []
    ensures Rest(sections, chunks) == sections
  {
  }

  lemma SliceOfAll(s: Bytes, room: nat)
    requires |s| <= room
    ensures Slice(s, room) == s && s[|s|..] == []
  {
  }

  lemma SliceAtEdge(s: Bytes, room: nat)
    requires room < |s| && (room == 0 || RuneStart(s[room]))
    ensures Slice(s, room) == s[..room]
  {
  }

  lemma {:induction false} CleanRest(sections: seq<Bytes>, size: nat, n: nat)
    requires n * size <= Total(sections) && forall k :: 0 < k <= n ==> IsEdge(sections, k * size)
    ensures RestAfter(sections, size, n) == DropBytes(sections, n * size)
  {
    hide Drain, Rest, DropBytes, IsEdge, Total;
    if n == 0 {
      DropNothing(sections);
    } else {
      OneMorePage(n, size);
      var before := (n - 1) * size;
      CleanRest(sections, size, n - 1);
      EdgeOfRest(sections, before, size);
      DropTotal(sections, before);
      DrainToEdge(DropBytes(sections, before), size);
      DropTwice(sections, before, size);
    }
  }

  /** If no page edge falls inside a rune, nothing is lost and all pages but the last are full. */
  lemma CleanEdgesLoseNothing(sections: seq<Bytes>, size: nat)
    requires size > 0 && Total(sections) > 0
    requires forall k :: 0 < k < PageCount(Total(sections), size) ==> IsEdge(sections, k * size)
    ensures var n := PageCount(Total(sections), size);
            && Total(RestAfter(sections, size, n)) == 0
            && forall k: nat :: k + 1 < n ==> Total(PageAt(sections, size, k)) == size
  {
    hide RestAfter, Total, PageCount, PageAt, IsEdge, DropBytes;
    var n := PageCount(Total(sections), size);
    CountIsTight(Total(sections), size);
    forall k: nat | k < n ensures Total(RestAfter(sections, size, k)) == Total(sections) - k * size {
      Fewer(k, n - 1, size);
      CleanRest(sections, size, k);
      DropTotal(sections, k * size);
    }
    forall k: nat | k + 1 < n ensures Total(PageAt(sections, size, k)) == size {
      NextRest(sections, size, k);
      OneMorePage(k + 1, size);
      assert Total(RestAfter(sections, size, k + 1)) == Total(sections) - (k + 1) * size;
    }
    OneMorePage(n, size);
    NextRest(sections, size, n - 1);
    assert Total(RestAfter(sections, size, n - 1)) <= size;
    LastTakesAll(sections, size, n - 1);
  }

  lemma LastTakesAll(sections: seq<Bytes>, size: nat, n: nat)
    requires Total(RestAfter(sections, size, n)) <= size
    ensures Total(RestAfter(sections, size, n + 1)) == 0
  {
    hide Drain, Total, Rest;
    NextRest(sections, size, n);
    AllFits(RestAfter(sections, size, n), size);
  }

  // ---- One section alone: exactly when nothing is lost ----

  /** The other sections are empty. */
  ghost predicate Alone(sections: seq<Bytes>, j: nat) {
    j < |sections| && forall i :: 0 <= i < |sections| && i != j ==> sections[i] == []
  }

  lemma {:induction false} DrainAlone(sections: seq<Bytes>, j: nat, room: nat)
    requires Alone(sections, j)
    ensures Drain(sections, room)[j] == Slice(sections[j], room)
    ensures forall i :: 0 <= i < |sections| && i != j ==> Drain(sections, room)[i] == []
  {
    if j > 0 {
      assert sections[0] == [] && Slice(sections[0], room) == [];
      DrainAlone(sections[1..], j - 1, room);
    } else {
      forall i | 0 < i < |sections| ensures Drain(sections, room)[i] == [] {
        assert Drain(sections, room)[i] <= sections[i];
      }
    }
  }

  /** Where the pages of one content end. */
  function EndOf(s: Bytes, size: nat, n: nat): (p: nat)
    ensures p <= |s|
  {
    if n == 0 then 0 else EndOf(s, size, n - 1) + |Slice(s[EndOf(s, size, n - 1)..], size)|
  }

  lemma {:induction false} RestAlone(sections: seq<Bytes>, j: nat, size: nat, n: nat)
    requires Alone(sections, j)
    ensures Alone(RestAfter(sections, size, n), j)
    ensures RestAfter(sections, size, n)[j] == sections[j][EndOf(sections[j], size, n)..]
  {
    hide Drain, Slice;
    if n > 0 {
      var before := RestAfter(sections, size, n - 1);
      RestAlone(sections, j, size, n - 1);
      DrainAlone(before, j, size);
    }
  }

  /** A content can be cut at p: at its ends and where a rune starts. */
  predicate IsRuneEdge(s: Bytes, p: nat) { p <= |s| && (p == 0 || p == |s| || RuneStart(s[p])) }

  /** The content divided into n pieces of at most `size` bytes, each of whole runes. */
  ghost predicate Divides(s: Bytes, size: nat, cuts: seq<nat>, n: nat) {
    && |cuts| == n + 1 && cuts[0] == 0 && cuts[n] == |s|
    && (forall k :: 0 <= k <= n ==> IsRuneEdge(s, cuts[k]))
    && forall k :: 0 <= k < n ==> cuts[k] <= cuts[k + 1] <= cuts[k] + size
  }

  lemma EndIsRuneEdge(s: Bytes, size: nat, p: nat)
    requires IsRuneEdge(s, p)
    ensures IsRuneEdge(s, p + |Slice(s[p..], size)|) && |Slice(s[p..], size)| <= size
  {
    hide Slice;
    SliceEndsAtARune(s[p..], size);
  }

  /** No cut that is in reach is ahead of the page's. */
  lemma SliceReaches(s: Bytes, size: nat, p: nat, cut: nat)
    requires p <= |s| && p <= cut <= p + size && IsRuneEdge(s, cut)
    ensures p + |Slice(s[p..], size)| >= cut
  {
    if |s| - p > size && cut > p {
      CutIsNear(s[p..], size, cut - p);
    }
  }

  lemma {:induction false} EndsAreRuneEdges(s: Bytes, size: nat, n: nat)
    ensures IsRuneEdge(s, EndOf(s, size, n))
  {
    if n > 0 {
      EndsAreRuneEdges(s, size, n - 1);
      EndIsRuneEdge(s, size, EndOf(s, size, n - 1));
    }
  }

  /** However else a content may be divided, the pages are never behind. */
  lemma {:induction false} PagesStayAhead(s: Bytes, size: nat, cuts: seq<nat>, n: nat, k: nat)
    requires Divides(s, size, cuts, n) && k <= n
    ensures EndOf(s, size, k) >= cuts[k]
  {
    hide Slice;
    if k > 0 {
      PagesStayAhead(s, size, cuts, n, k - 1);
      var p := EndOf(s, size, k - 1);
      if cuts[k] > p {
        SliceReaches(s, size, p, cuts[k]);
      }
    }
  }

  lemma PagesDivide(s: Bytes, size: nat, n: nat)
    requires EndOf(s, size, n) == |s|
    ensures exists cuts :: Divides(s, size, cuts, n)
  {
    hide Slice;
    var cuts := seq(n + 1, k requires 0 <= k <= n => EndOf(s, size, k));
    forall k | 0 <= k <= n ensures IsRuneEdge(s, cuts[k]) {
      EndsAreRuneEdges(s, size, k);
    }
    forall k | 0 <= k < n ensures cuts[k] <= cuts[k + 1] <= cuts[k] + size {
      EndsAreRuneEdges(s, size, k);
      EndIsRuneEdge(s, size, cuts[k]);
    }
    assert Divides(s, size, cuts, n);
  }

  /** A section that is alone loses nothing exactly when it can be divided at all into as many pieces of whole runes,
      of at most `size` bytes each, as there are pages. */
  lemma LosslessExactly(sections: seq<Bytes>, j: nat, size: nat, n: nat)
    requires Alone(sections, j)
    ensures Total(RestAfter(sections, size, n)) == 0 <==> exists cuts :: Divides(sections[j], size, cuts, n)
  {
    hide EndOf, RestAfter, Divides;
    var s := sections[j];
    RestAlone(sections, j, size, n);
    TotalOfNone(RestAfter(sections, size, n));
    if EndOf(s, size, n) == |s| {
      PagesDivide(s, size, n);
    }
    if cuts :| Divides(s, size, cuts, n) {
      PagesStayAhead(s, size, cuts, n, n);
      DividesEnds(s, size, cuts, n);
    }
  }

  lemma DividesEnds(s: Bytes, size: nat, cuts: seq<nat>, n: nat)
    requires Divides(s, size, cuts, n)
    ensures cuts[n] == |s|
  {
  }

  // ---- UTF-8 ----

  /** How long the rune that starts with this byte is. */
  function RuneLength(b: Byte): nat {
    if b < 128 then 1 else if b < 224 then 2 else if b < 240 then 3 else 4
  }

  /** Runes one after the other: a byte that starts one, then the bytes that continue it. */
  ghost predicate IsUtf8(s: Bytes)
    decreases |s|
  {
    s == [] ||
    (var n := RuneLength(s[0]);
     RuneStart(s[0]) && n <= |s| && (forall i :: 1 <= i < n ==> !RuneStart(s[i])) && IsUtf8(s[n..]))
  }

  lemma {:induction false} Utf8IsSpaced(s: Bytes)
    requires IsUtf8(s)
    ensures Spaced(s, 3)
    decreases |s|
  {
    if s != [] {
      var n := RuneLength(s[0]);
      Utf8IsSpaced(s[n..]);
      forall i | 0 <= i < |s| ensures StartsNear(s, i, 3) {
        if i < n {
          assert RuneStart(s[0]);
        } else {
          assert StartsNear(s[n..], i - n, 3);
          var k :| i - n - 3 <= k <= i - n && 0 <= k && RuneStart(s[n..][k]);
          assert RuneStart(s[n + k]);
        }
      }
    }
  }

  /** Cut where a rune starts, valid UTF-8 falls into two valid parts. */
  lemma {:induction false} Utf8Parts(s: Bytes, cut: nat)
    requires IsUtf8(s) && cut <= |s| && (0 < cut < |s| ==> RuneStart(s[cut]))
    ensures IsUtf8(s[..cut]) && IsUtf8(s[cut..])
    decreases |s|
  {
    if cut == 0 {
      assert s[..0] == [] && s[0..] == s;
    } else {
      var n := RuneLength(s[0]);
      Utf8Parts(s[n..], cut - n);
      assert s[n..][cut - n..] == s[cut..];
      FirstRune(s, s[..cut], n);
    }
  }

  /** The first rune of `s` followed by valid UTF-8. */
  lemma FirstRune(s: Bytes, part: Bytes, n: nat)
    requires s != [] && IsUtf8(s) && n == RuneLength(s[0]) && n <= |part| && part <= s && IsUtf8(s[n..][..|part| - n])
    ensures IsUtf8(part)
  {
    assert part[n..] == s[n..][..|part| - n];
  }

  lemma DrainKeepsUtf8(sections: seq<Bytes>, room: nat, j: nat)
    requires j < |sections| && IsUtf8(sections[j])
    ensures IsUtf8(Drain(sections, room)[j]) && IsUtf8(Rest(sections, Drain(sections, room))[j])
  {
    hide Slice, Drain, IsUtf8;
    var left := ChunkIsSlice(sections, room, j);
    SliceEndsAtARune(sections[j], left);
    var cut := |Slice(sections[j], left)|;
    Utf8Parts(sections[j], cut);
    assert Drain(sections, room)[j] == sections[j][..cut];
  }

  lemma {:induction false} RestIsUtf8(sections: seq<Bytes>, size: nat, n: nat, j: nat)
    requires j < |sections| && IsUtf8(sections[j])
    ensures IsUtf8(RestAfter(sections, size, n)[j])
  {
    hide Drain, Rest, IsUtf8;
    if n > 0 {
      RestIsUtf8(sections, size, n - 1, j);
      DrainKeepsUtf8(RestAfter(sections, size, n - 1), size, j);
    }
  }

  /** No page cuts a rune: what it carries of valid UTF-8 is valid UTF-8. */
  lemma ChunksAreUtf8(sections: seq<Bytes>, size: nat, n: nat, j: nat)
    requires j < |sections| && IsUtf8(sections[j])
    ensures |PageAt(sections, size, n)| == |sections| && IsUtf8(PageAt(sections, size, n)[j])
  {
    hide Drain, IsUtf8;
    RestIsUtf8(sections, size, n, j);
    DrainKeepsUtf8(RestAfter(sections, size, n), size, j);
  }

  /** Valid UTF-8 loses at most 3 bytes a page. */
  lemma Utf8LosesAtMostThree(sections: seq<Bytes>, size: nat)
    requires (forall j :: 0 <= j < |sections| ==> IsUtf8(sections[j])) && size > 0 && Total(sections) > 0
    ensures var n := PageCount(Total(sections), size); Total(RestAfter(sections, size, n)) <= n * 3
  {
    hide IsUtf8, Spaced, PageCount, RestAfter, Total;
    forall j | 0 <= j < |sections| ensures Spaced(sections[j], 3) {
      Utf8IsSpaced(sections[j]);
    }
    LossIsBounded(sections, size, 3);
  }

  /** Two three-byte runes in pages of two bytes are lost altogether: no page has room for one. */
  lemma WideRunesAreLost()
    ensures var s := [[226 as Byte, 130, 172, 226, 130, 172]];
            PageCount(Total(s), 2) == 3 && RestAfter(s, 2, 3) == s
  {
    var s := [[226 as Byte, 130, 172, 226, 130, 172]];
    assert s[1..] == [];
    assert Total(s) == 6;
    assert Cut(s[0], 2) == Cut(s[0], 1) == Cut(s[0], 0) == 0;
    assert Drain(s, 2) == [[]];
    assert Rest(s, [[]]) == s;
    assert RestAfter(s, 2, 1) == s && RestAfter(s, 2, 2) == s;
  }

  // ---- The two kinds of pages ----

  datatype SessionPage = SessionPage(turns: Bytes, events: Bytes, plan: Bytes, diff: Bytes, uncommittedDiff: Bytes,
      memory: Bytes)
  {
    /** By priority. */
    function Chunks(): seq<Bytes> { [turns, events, plan, diff, uncommittedDiff, memory] }

    function Size(): nat { |turns| + |events| + |plan| + |diff| + |uncommittedDiff| + |memory| }
  }

  function SessionChunks(pages: seq<SessionPage>): seq<seq<Bytes>> {
    seq(|pages|, k requires 0 <= k < |pages| => pages[k].Chunks())
  }

  function EventsChunks(pages: seq<EventsPage>): seq<seq<Bytes>> {
    seq(|pages|, k requires 0 <= k < |pages| => pages[k].Chunks())
  }

  const EMPTY_PAGE := SessionPage([], [], [], [], [], [])

  datatype EventsPage = EventsPage(events: Bytes, revisions: Bytes)
  {
    function Chunks(): seq<Bytes> { [events, revisions] }

    function Size(): nat { |events| + |revisions| }
  }

  /** The content size the builder computes is the sections' total. */
  lemma SizeIsTotal(s: SessionPage)
    ensures Total(s.Chunks()) == s.Size()
  {
    hide Total;
    TotalOfThree(s.turns, s.events, s.plan, [s.diff, s.uncommittedDiff, s.memory]);
    TotalOfThree(s.diff, s.uncommittedDiff, s.memory, []);
    assert s.Chunks() == [s.turns, s.events, s.plan] + [s.diff, s.uncommittedDiff, s.memory];
    assert [s.diff, s.uncommittedDiff, s.memory] + [] == [s.diff, s.uncommittedDiff, s.memory];
    TotalOfNone([]);
  }

  lemma EventsSizeIsTotal(s: EventsPage)
    ensures Total(s.Chunks()) == s.Size()
  {
    hide Total;
    TotalOfTwo(s.events, s.revisions);
    TotalOfNone([]);
  }

  lemma TotalCons(a: Bytes, more: seq<Bytes>)
    ensures Total([a] + more) == |a| + Total(more)
  {
    assert ([a] + more)[1..] == more;
  }

  lemma TotalOfThree(a: Bytes, b: Bytes, c: Bytes, more: seq<Bytes>)
    ensures Total([a, b, c] + more) == |a| + |b| + |c| + Total(more)
  {
    hide Total;
    assert [a, b, c] + more == [a] + ([b] + ([c] + more));
    TotalCons(a, [b] + ([c] + more));
    TotalCons(b, [c] + more);
    TotalCons(c, more);
  }

  lemma TotalOfTwo(a: Bytes, b: Bytes)
    ensures Total([a, b]) == |a| + |b|
  {
    assert [a, b] == [a] + ([b] + []);
    TotalCons(a, [b] + []);
    TotalCons(b, []);
  }

  // ---- What the pages built are worth ----

  function JoinedAt(pages: seq<seq<Bytes>>, j: nat): Bytes
    requires forall k :: 0 <= k < |pages| ==> j < |pages[k]|
  {
    if pages == [] then [] else JoinedAt(pages[..|pages| - 1], j) + pages[|pages| - 1][j]
  }

  function TotalOfPages(pages: seq<seq<Bytes>>): nat {
    if pages == [] then 0 else TotalOfPages(pages[..|pages| - 1]) + Total(pages[|pages| - 1])
  }

  ghost predicate AllUtf8(sections: seq<Bytes>) { forall j :: 0 <= j < |sections| ==> IsUtf8(sections[j]) }

  ghost predicate SameSections(sections: seq<Bytes>, pages: seq<seq<Bytes>>) {
    forall k :: 0 <= k < |pages| ==> |pages[k]| == |sections|
  }

  /** Every page fits, each section's chunks are a prefix of it, nothing of ASCII is lost and its pages but the last
      are full, and valid UTF-8 stays valid and loses at most 3 bytes a page. */
  ghost predicate Serve(sections: seq<Bytes>, size: nat, pages: seq<seq<Bytes>>)
    requires SameSections(sections, pages)
  {
    && (forall k :: 0 <= k < |pages| ==> Total(pages[k]) <= size)
    && (forall j :: 0 <= j < |sections| ==> JoinedAt(pages, j) <= sections[j])
    && (AllSpaced(sections, 0) ==>
          && (forall j :: 0 <= j < |sections| ==> JoinedAt(pages, j) == sections[j])
          && forall k :: 0 <= k < |pages| - 1 ==> Total(pages[k]) == size)
    && (AllUtf8(sections) ==>
          && (forall k, j :: 0 <= k < |pages| && 0 <= j < |sections| ==> IsUtf8(pages[k][j]))
          && Total(sections) <= TotalOfPages(pages) + |pages| * 3)
  }

  lemma {:induction false} JoinedIsSection(sections: seq<Bytes>, size: nat, pages: seq<seq<Bytes>>, j: nat)
    requires SameSections(sections, pages) && j < |sections|
    requires forall k :: 0 <= k < |pages| ==> pages[k] == PageAt(sections, size, k)
    ensures JoinedAt(pages, j) == Section(sections, size, |pages|, j)
  {
    hide PageAt;
    if pages != [] { JoinedIsSection(sections, size, pages[..|pages| - 1], j); }
  }

  lemma {:induction false} TotalIsTaken(sections: seq<Bytes>, size: nat, pages: seq<seq<Bytes>>)
    requires forall k :: 0 <= k < |pages| ==> pages[k] == PageAt(sections, size, k)
    ensures Total(sections) == TotalOfPages(pages) + Total(RestAfter(sections, size, |pages|))
  {
    hide PageAt, Total, RestAfter;
    if pages == [] {
      NothingTaken(sections, size);
    } else {
      TotalIsTaken(sections, size, pages[..|pages| - 1]);
      NextRest(sections, size, |pages| - 1);
    }
  }

  lemma PagesServe(sections: seq<Bytes>, size: nat, pages: seq<seq<Bytes>>)
    requires SameSections(sections, pages) && size > 0 && Total(sections) > 0
    requires |pages| == PageCount(Total(sections), size)
    requires forall k :: 0 <= k < |pages| ==> pages[k] == PageAt(sections, size, k)
    ensures Serve(sections, size, pages)
  {
    hide PageAt, Total, RestAfter, PageCount, AllSpaced, IsUtf8, JoinedAt, Section, TotalOfPages;
    var n := |pages|;
    forall k | 0 <= k < n ensures Total(pages[k]) <= size { PageFits(sections, size, k); }
    forall j | 0 <= j < |sections| ensures sections[j] == JoinedAt(pages, j) + RestAfter(sections, size, n)[j] {
      JoinedIsSection(sections, size, pages, j);
      ChunksAreAPrefix(sections, size, n, j);
    }
    if AllSpaced(sections, 0) {
      AsciiLosesNothing(sections, size);
      TotalOfNone(RestAfter(sections, size, n));
    }
    if AllUtf8(sections) {
      Utf8LosesAtMostThree(sections, size);
      TotalIsTaken(sections, size, pages);
      forall k, j | 0 <= k < n && 0 <= j < |sections| ensures IsUtf8(pages[k][j]) {
        ChunksAreUtf8(sections, size, k, j);
      }
    }
  }

  /** A single page that has room for everything. */
  lemma OnePageServes(sections: seq<Bytes>, size: nat)
    requires Total(sections) <= size
    ensures Serve(sections, size, [sections])
  {
    hide Total;
    assert [sections][..0] == [];
    forall j | 0 <= j < |sections| ensures JoinedAt([sections], j) == sections[j] {
      assert JoinedAt([sections], j) == [] + sections[j];
    }
  }

  // ---- The order of the sections ----

  /** While something of a section is left, the ones after it get no more than a cut rune leaves them. */
  lemma {:induction false} DrainInOrder(sections: seq<Bytes>, room: nat, gap: nat, i: nat)
    requires AllSpaced(sections, gap) && i < |sections| && Drain(sections, room)[i] != sections[i]
    ensures Total(Drain(sections, room)[i + 1..]) <= gap
  {
    hide Drain, Total, Slice, Spaced;
    var chunk := Slice(sections[0], room);
    var more := Drain(sections[1..], room - |chunk|);
    DrainStep(sections, room);
    if i == 0 {
      SliceWastes(sections[0], room, gap);
      DrainFits(sections[1..], room - |chunk|);
      assert Drain(sections, room)[1..] == more;
    } else {
      TailSpaced(sections, gap);
      DrainInOrder(sections[1..], room - |chunk|, gap, i - 1);
      assert Drain(sections, room)[i + 1..] == more[i..];
    }
  }

  lemma {:induction false} RestShrinks(sections: seq<Bytes>, size: nat, k: nat, m: nat, i: nat)
    requires i < |sections| && k <= m && RestAfter(sections, size, m)[i] != []
    ensures RestAfter(sections, size, k)[i] != []
  {
    hide RestAfter, PageAt;
    if k < m {
      NextRest(sections, size, m - 1);
      RestShrinks(sections, size, k, m - 1, i);
    }
  }

  lemma PagesInOrder(sections: seq<Bytes>, size: nat, gap: nat, k: nat, m: nat, i: nat)
    requires AllSpaced(sections, gap) && i < |sections| && k < m && PageAt(sections, size, m)[i] != []
    ensures Total(PageAt(sections, size, k)[i + 1..]) <= gap
  {
    hide Drain, Total, AllSpaced, RestAfter;
    NextRest(sections, size, m);
    RestShrinks(sections, size, k + 1, m, i);
    RestSpaced(sections, size, k, gap);
    NextRest(sections, size, k);
    DrainInOrder(RestAfter(sections, size, k), size, gap, i);
  }

  /** Of two pages, `a` handed out before `b`: where `b` still has something of one section, `a` has at most `gap` bytes of
      the sections after it. Turns come first, then events, plan, diff, uncommitted diff and memory. */
  ghost predicate InPriority(a: SessionPage, b: SessionPage, gap: nat) {
    && (b.turns != [] ==> |a.events| + |a.plan| + |a.diff| + |a.uncommittedDiff| + |a.memory| <= gap)
    && (b.events != [] ==> |a.plan| + |a.diff| + |a.uncommittedDiff| + |a.memory| <= gap)
    && (b.plan != [] ==> |a.diff| + |a.uncommittedDiff| + |a.memory| <= gap)
    && (b.diff != [] ==> |a.uncommittedDiff| + |a.memory| <= gap)
    && (b.uncommittedDiff != [] ==> |a.memory| <= gap)
  }

  /** Events come before revisions. */
  ghost predicate EventsFirst(a: EventsPage, b: EventsPage, gap: nat) { b.events != [] ==> |a.revisions| <= gap }

  lemma TotalsAfter(page: SessionPage)
    ensures Total(page.Chunks()[1..]) == |page.events| + |page.plan| + |page.diff| + |page.uncommittedDiff| + |page.memory|
    ensures Total(page.Chunks()[2..]) == |page.plan| + |page.diff| + |page.uncommittedDiff| + |page.memory|
    ensures Total(page.Chunks()[3..]) == |page.diff| + |page.uncommittedDiff| + |page.memory|
    ensures Total(page.Chunks()[4..]) == |page.uncommittedDiff| + |page.memory|
    ensures Total(page.Chunks()[5..]) == |page.memory|
  {
    hide Total;
    var chunks := page.Chunks();
    TotalOfNone([]);
    assert chunks[5..] == [page.memory] + [] && chunks[4..] == [page.uncommittedDiff] + chunks[5..];
    assert chunks[3..] == [page.diff] + chunks[4..] && chunks[2..] == [page.plan] + chunks[3..];
    assert chunks[1..] == [page.events] + chunks[2..];
    TotalCons(page.memory, []);
    TotalCons(page.uncommittedDiff, chunks[5..]);
    TotalCons(page.diff, chunks[4..]);
    TotalCons(page.plan, chunks[3..]);
    TotalCons(page.events, chunks[2..]);
  }

  lemma SessionInPriority(s: SessionPage, size: nat, gap: nat, k: nat, m: nat, a: SessionPage, b: SessionPage)
    requires AllSpaced(s.Chunks(), gap) && k < m
    requires a.Chunks() == PageAt(s.Chunks(), size, k) && b.Chunks() == PageAt(s.Chunks(), size, m)
    ensures InPriority(a, b, gap)
  {
    hide Total, AllSpaced, PageAt;
    TotalsAfter(a);
    forall i: nat | i < 6 && b.Chunks()[i] != [] ensures Total(a.Chunks()[i + 1..]) <= gap {
      PagesInOrder(s.Chunks(), size, gap, k, m, i);
    }
    assert b.Chunks()[0] == b.turns && b.Chunks()[1] == b.events && b.Chunks()[2] == b.plan;
    assert b.Chunks()[3] == b.diff && b.Chunks()[4] == b.uncommittedDiff;
  }

  lemma EventsInPriority(s: EventsPage, size: nat, gap: nat, k: nat, m: nat, a: EventsPage, b: EventsPage)
    requires AllSpaced(s.Chunks(), gap) && k < m
    requires a.Chunks() == PageAt(s.Chunks(), size, k) && b.Chunks() == PageAt(s.Chunks(), size, m)
    ensures EventsFirst(a, b, gap)
  {
    hide Total, AllSpaced, PageAt;
    if b.events != [] {
      PagesInOrder(s.Chunks(), size, gap, k, m, 0);
      assert a.Chunks()[1..] == [a.revisions] + [];
      TotalCons(a.revisions, []);
      TotalOfNone([]);
    }
  }

  /** The pages hand out the sections one after the other: of ASCII nothing comes before its turn, of valid UTF-8 at most
      the three bytes a page that a cut rune leaves. */
  ghost predicate ServedInPriority(s: SessionPage, pages: seq<SessionPage>) {
    forall k, m :: 0 <= k < m < |pages| ==>
      && (AllSpaced(s.Chunks(), 0) ==> InPriority(pages[k], pages[m], 0))
      && (AllUtf8(s.Chunks()) ==> InPriority(pages[k], pages[m], 3))
  }

  ghost predicate EventsServedFirst(s: EventsPage, pages: seq<EventsPage>) {
    forall k, m :: 0 <= k < m < |pages| ==>
      && (AllSpaced(s.Chunks(), 0) ==> EventsFirst(pages[k], pages[m], 0))
      && (AllUtf8(s.Chunks()) ==> EventsFirst(pages[k], pages[m], 3))
  }

  lemma AllUtf8IsSpaced(sections: seq<Bytes>)
    requires AllUtf8(sections)
    ensures AllSpaced(sections, 3)
  {
    hide IsUtf8, Spaced;
    forall j | 0 <= j < |sections| ensures Spaced(sections[j], 3) { Utf8IsSpaced(sections[j]); }
  }

  lemma PagesAreInPriority(s: SessionPage, size: nat, pages: seq<SessionPage>)
    requires forall k: nat :: k < |pages| ==> pages[k].Chunks() == PageAt(s.Chunks(), size, k)
    ensures ServedInPriority(s, pages)
  {
    hide PageAt, AllSpaced, AllUtf8, InPriority, SessionPage.Chunks;
    if AllUtf8(s.Chunks()) { AllUtf8IsSpaced(s.Chunks()); }
    forall k: nat, m: nat, gap: nat | k < m < |pages| && AllSpaced(s.Chunks(), gap)
      ensures InPriority(pages[k], pages[m], gap)
    {
      SessionInPriority(s, size, gap, k, m, pages[k], pages[m]);
    }
  }

  lemma EventsPagesAreInPriority(s: EventsPage, size: nat, pages: seq<EventsPage>)
    requires forall k: nat :: k < |pages| ==> pages[k].Chunks() == PageAt(s.Chunks(), size, k)
    ensures EventsServedFirst(s, pages)
  {
    hide PageAt, AllSpaced, AllUtf8, EventsFirst, EventsPage.Chunks;
    if AllUtf8(s.Chunks()) { AllUtf8IsSpaced(s.Chunks()); }
    forall k: nat, m: nat, gap: nat | k < m < |pages| && AllSpaced(s.Chunks(), gap)
      ensures EventsFirst(pages[k], pages[m], gap)
    {
      EventsInPriority(s, size, gap, k, m, pages[k], pages[m]);
    }
  }

  // ---- Building ----

  lemma DrainThree(a: Bytes, b: Bytes, c: Bytes, more: seq<Bytes>, size: nat)
    ensures var x := Slice(a, size);
            var y := Slice(b, size - |x|);
            var z := Slice(c, size - |x| - |y|);
            Drain([a, b, c] + more, size) == [x, y, z] + Drain(more, size - |x| - |y| - |z|)
  {
    hide Drain, Slice;
    var x := Slice(a, size);
    var y := Slice(b, size - |x|);
    assert [a, b, c] + more == [a] + ([b] + ([c] + more));
    DrainCons(a, [b] + ([c] + more), size);
    DrainCons(b, [c] + more, size - |x|);
    DrainCons(c, more, size - |x| - |y|);
  }

  lemma DrainSix(s: SessionPage, size: nat)
    ensures var a := Slice(s.turns, size);
            var b := Slice(s.events, size - |a|);
            var c := Slice(s.plan, size - |a| - |b|);
            var d := Slice(s.diff, size - |a| - |b| - |c|);
            var e := Slice(s.uncommittedDiff, size - |a| - |b| - |c| - |d|);
            var f := Slice(s.memory, size - |a| - |b| - |c| - |d| - |e|);
            Drain(s.Chunks(), size) == [a, b, c, d, e, f]
  {
    hide Drain, Slice;
    var a := Slice(s.turns, size);
    var b := Slice(s.events, size - |a|);
    var c := Slice(s.plan, size - |a| - |b|);
    var tail := [s.diff, s.uncommittedDiff, s.memory];
    assert s.Chunks() == [s.turns, s.events, s.plan] + tail;
    DrainThree(s.turns, s.events, s.plan, tail, size);
    assert tail == tail + [];
    DrainThree(s.diff, s.uncommittedDiff, s.memory, [], size - |a| - |b| - |c|);
    assert forall room: nat :: Drain([], room) == [] by { NoSections(); }
  }

  lemma NoSections()
    ensures forall room: nat :: Drain([], room) == []
  {
  }

  /** One turn of build's loop: each section in turn, until the page is full. */
  method FillPage(s: SessionPage, size: nat) returns (page: SessionPage, rest: SessionPage)
    requires size > 0
    ensures page.Chunks() == Drain(s.Chunks(), size) && rest.Chunks() == Rest(s.Chunks(), page.Chunks())
  {
    hide Drain, Slice;
    DrainSix(s, size);
    page, rest := EMPTY_PAGE, s;
    var room := size;

    var turnChunk := UTF8SafeSlice(rest.turns, room);
    page, rest := page.(turns := turnChunk), rest.(turns := rest.turns[|turnChunk|..]);
    if |turnChunk| == room {
      NoRoom(s.events); NoRoom(s.plan); NoRoom(s.diff); NoRoom(s.uncommittedDiff); NoRoom(s.memory);
      return;
    }
    room := room - |turnChunk|;

    var eventChunk := UTF8SafeSlice(rest.events, room);
    page, rest := page.(events := eventChunk), rest.(events := rest.events[|eventChunk|..]);
    if |eventChunk| == room {
      NoRoom(s.plan); NoRoom(s.diff); NoRoom(s.uncommittedDiff); NoRoom(s.memory);
      return;
    }
    room := room - |eventChunk|;

    var planChunk := UTF8SafeSlice(rest.plan, room);
    page, rest := page.(plan := planChunk), rest.(plan := rest.plan[|planChunk|..]);
    if |planChunk| == room {
      NoRoom(s.diff); NoRoom(s.uncommittedDiff); NoRoom(s.memory);
      return;
    }
    room := room - |planChunk|;

    var diffChunk := UTF8SafeSlice(rest.diff, room);
    page, rest := page.(diff := diffChunk), rest.(diff := rest.diff[|diffChunk|..]);
    if |diffChunk| == room {
      NoRoom(s.uncommittedDiff); NoRoom(s.memory);
      return;
    }
    room := room - |diffChunk|;

    var uncommittedChunk := UTF8SafeSlice(rest.uncommittedDiff, room);
    page, rest := page.(uncommittedDiff := uncommittedChunk),
        rest.(uncommittedDiff := rest.uncommittedDiff[|uncommittedChunk|..]);
    if |uncommittedChunk| == room {
      NoRoom(s.memory);
      return;
    }
    room := room - |uncommittedChunk|;

    var memoryChunk := UTF8SafeSlice(rest.memory, room);
    page, rest := page.(memory := memoryChunk), rest.(memory := rest.memory[|memoryChunk|..]);
  }

  lemma NoRoom(s: Bytes)
    ensures Slice(s, 0) == [] && s[0..] == s
  {
  }

  /** PageBuilder.build: one page if everything fits or pages are unbounded, else as many as the count says. */
  method Build(size: int, s: SessionPage) returns (first: SessionPage, next: seq<SessionPage>)
    ensures size <= 0 || s.Size() <= size ==> first == s && next == []
    ensures size > 0 && s.Size() > size ==>
              && |[first] + next| == PageCount(s.Size(), size)
              && forall k: nat :: k < |[first] + next| ==> ([first] + next)[k].Chunks() == PageAt(s.Chunks(), size, k)
    ensures size > 0 ==> Serve(s.Chunks(), size, SessionChunks([first] + next))
    ensures ServedInPriority(s, [first] + next)
  {
    hide Drain, Rest, Serve, AllSpaced, AllUtf8, InPriority, Total, PageCount, SessionPage.Size;
    SizeIsTotal(s);
    if size <= 0 || s.Size() <= size {
      if size > 0 {
        OnePageServes(s.Chunks(), size);
        assert SessionChunks([s] + []) == [s.Chunks()];
      }
      return s, [];
    }
    var pageCount := PageCount(s.Size(), size);
    CountIsTight(s.Size(), size);
    var pages := new SessionPage[pageCount](_ => EMPTY_PAGE);
    var rest := s;
    for pageIndex := 0 to pageCount
      invariant rest.Chunks() == RestAfter(s.Chunks(), size, pageIndex)
      invariant forall k: nat :: k < pageIndex ==> pages[k].Chunks() == PageAt(s.Chunks(), size, k)
    {
      var page, left := FillPage(rest, size);
      pages[pageIndex], rest := page, left;
    }
    first, next := pages[0], pages[1..];
    assert [first] + next == pages[..];
    PagesServe(s.Chunks(), size, SessionChunks([first] + next));
    PagesAreInPriority(s, size, [first] + next);
  }

  /** The same for the two sections of session_events. */
  method FillEventsPage(s: EventsPage, size: nat) returns (page: EventsPage, rest: EventsPage)
    requires size > 0
    ensures page.Chunks() == Drain(s.Chunks(), size) && rest.Chunks() == Rest(s.Chunks(), page.Chunks())
  {
    hide Slice;
    DrainCons(s.events, [s.revisions], size);
    DrainCons(s.revisions, [], size - |Slice(s.events, size)|);
    assert [s.events] + [s.revisions] == s.Chunks() && [s.revisions] + [] == [s.revisions];
    page, rest := EventsPage([], []), s;
    var room := size;
    var eventChunk := UTF8SafeSlice(rest.events, room);
    page, rest := page.(events := eventChunk), rest.(events := rest.events[|eventChunk|..]);
    if |eventChunk| == room {
      NoRoom(s.revisions);
      return;
    }
    room := room - |eventChunk|;
    var revisionChunk := UTF8SafeSlice(rest.revisions, room);
    page, rest := page.(revisions := revisionChunk), rest.(revisions := rest.revisions[|revisionChunk|..]);
  }

  method BuildEvents(size: int, s: EventsPage) returns (first: EventsPage, next: seq<EventsPage>)
    ensures size <= 0 || s.Size() <= size ==> first == s && next == []
    ensures size > 0 && s.Size() > size ==>
              && |[first] + next| == PageCount(s.Size(), size)
              && forall k: nat :: k < |[first] + next| ==> ([first] + next)[k].Chunks() == PageAt(s.Chunks(), size, k)
    ensures size > 0 ==> Serve(s.Chunks(), size, EventsChunks([first] + next))
    ensures EventsServedFirst(s, [first] + next)
  {
    hide Drain, Rest, Serve, AllSpaced, AllUtf8, EventsFirst, Total, PageCount, EventsPage.Size;
    EventsSizeIsTotal(s);
    if size <= 0 || s.Size() <= size {
      if size > 0 {
        OnePageServes(s.Chunks(), size);
        assert EventsChunks([s] + []) == [s.Chunks()];
      }
      return s, [];
    }
    var pageCount := PageCount(s.Size(), size);
    CountIsTight(s.Size(), size);
    var pages := new EventsPage[pageCount](_ => EventsPage([], []));
    var rest := s;
    for pageIndex := 0 to pageCount
      invariant rest.Chunks() == RestAfter(s.Chunks(), size, pageIndex)
      invariant forall k: nat :: k < pageIndex ==> pages[k].Chunks() == PageAt(s.Chunks(), size, k)
    {
      var page, left := FillEventsPage(rest, size);
      pages[pageIndex], rest := page, left;
    }
    first, next := pages[0], pages[1..];
    assert [first] + next == pages[..];
    PagesServe(s.Chunks(), size, EventsChunks([first] + next));
    EventsPagesAreInPriority(s, size, [first] + next);
  }

  // ---- Handing out the pages ----

  /** The pages that wait to be asked for, by request id. */
  class PageStore<T(0)> {
    var pagesByRequestId: map<string, seq<T>>

    constructor ()
      ensures pagesByRequestId == map[]
    {
      pagesByRequestId := map[];
    }

    method Add(requestId: string, results: seq<T>)
      modifies this
      ensures pagesByRequestId == old(pagesByRequestId)[requestId := results]
    {
      pagesByRequestId := pagesByRequestId[requestId := results];
    }

    method HasNext(requestId: string) returns (r: bool)
      ensures r == (requestId in pagesByRequestId && pagesByRequestId[requestId] != [])
    {
      return requestId in pagesByRequestId && |pagesByRequestId[requestId]| > 0;
    }

    /** A drained queue is closed: it yields a zero page, and still says it found one. */
    method Next(requestId: string, zero: T) returns (page: T, isFound: bool)
      modifies this
      ensures isFound == (requestId in old(pagesByRequestId))
      ensures if isFound && old(pagesByRequestId)[requestId] != []
              then page == old(pagesByRequestId)[requestId][0]
                && pagesByRequestId == old(pagesByRequestId)[requestId := old(pagesByRequestId)[requestId][1..]]
              else page == zero && pagesByRequestId == old(pagesByRequestId)
    {
      if requestId !in pagesByRequestId {
        return zero, false;
      }
      var queue := pagesByRequestId[requestId];
      if |queue| == 0 {
        return zero, true;
      }
      pagesByRequestId := pagesByRequestId[requestId := queue[1..]];
      return queue[0], true;
    }

    method Remove(requestId: string)
      modifies this
      ensures pagesByRequestId == old(pagesByRequestId) - {requestId}
    {
      pagesByRequestId := pagesByRequestId - {requestId};
    }
  }

  /** What a call answers: a page, the id to ask on with, and whether there is more. */
  datatype Answer<T> = Answer(page: T, requestId: string, hasMore: bool) | NotFound

  /** Every id that is kept has pages waiting. */
  ghost predicate AllWait<T>(queues: map<string, seq<T>>) {
    forall id :: id in queues ==> id != "" && queues[id] != []
  }

  /** The first call of a request: the first page, and an id if there are others. */
  method First<T(0)>(store: PageStore<T>, first: T, next: seq<T>, requestId: string) returns (answer: Answer<T>)
    requires requestId != "" && AllWait(store.pagesByRequestId)
    modifies store
    ensures AllWait(store.pagesByRequestId)
    ensures (answer, store.pagesByRequestId) == FirstServed(old(store.pagesByRequestId), first, next, requestId)
  {
    if |next| == 0 {
      return Answer(first, "", false);
    }
    store.Add(requestId, next);
    return Answer(first, requestId, true);
  }

  /** A call with a request id: the next page; with the last one the id is forgotten. */
  method Continue<T(0)>(store: PageStore<T>, requestId: string, zero: T) returns (answer: Answer<T>)
    requires requestId != "" && AllWait(store.pagesByRequestId)
    modifies store
    ensures AllWait(store.pagesByRequestId)
    ensures answer == Served(old(store.pagesByRequestId), requestId).0
    ensures store.pagesByRequestId == Served(old(store.pagesByRequestId), requestId).1
  {
    var page, isFound := store.Next(requestId, zero);
    if !isFound {
      return NotFound;
    }
    var id := requestId;
    var hasNext := store.HasNext(requestId);
    if !hasNext {
      store.Remove(requestId);
      id := "";
    }
    var hasMore := store.HasNext(id);
    return Answer(page, id, hasMore);
  }

  /** What a continuing call answers, and the queues it leaves. */
  function Served<T>(queues: map<string, seq<T>>, requestId: string): (Answer<T>, map<string, seq<T>>) {
    if requestId !in queues || queues[requestId] == [] then (NotFound, queues)
    else
      var queue := queues[requestId];
      if |queue| == 1 then (Answer(queue[0], "", false), queues - {requestId})
      else (Answer(queue[0], requestId, true), queues[requestId := queue[1..]])
  }

  /** The answers to n continuing calls in a row. */
  function ServedInARow<T>(queues: map<string, seq<T>>, requestId: string, n: nat): seq<Answer<T>>
    decreases n
  {
    if n == 0 then []
    else
      var (answer, left) := Served(queues, requestId);
      [answer] + ServedInARow(left, requestId, n - 1)
  }

  /** What a first call answers, and the queues it leaves. */
  function FirstServed<T>(queues: map<string, seq<T>>, first: T, next: seq<T>, requestId: string):
      (Answer<T>, map<string, seq<T>>) {
    if next == [] then (Answer(first, "", false), queues) else (Answer(first, requestId, true), queues[requestId := next])
  }

  function QueuesAfter<T>(queues: map<string, seq<T>>, requestId: string, n: nat): map<string, seq<T>>
    decreases n
  {
    if n == 0 then queues else QueuesAfter(Served(queues, requestId).1, requestId, n - 1)
  }

  /** Continuing calls serve the waiting pages once each and in order, only the last without more, and then the
      id is gone. */
  lemma {:induction false} EachWaitingOnce<T>(queues: map<string, seq<T>>, requestId: string, n: nat)
    requires requestId in queues && queues[requestId] != [] && n == |queues[requestId]|
    ensures var answers := ServedInARow(queues, requestId, n);
            && |answers| == n && QueuesAfter(queues, requestId, n) == queues - {requestId}
            && forall k :: 0 <= k < n ==>
                 answers[k].Answer? && answers[k].page == queues[requestId][k] && (answers[k].hasMore <==> k < n - 1)
    decreases n
  {
    var queue := queues[requestId];
    var left := Served(queues, requestId).1;
    if |queue| > 1 {
      EachWaitingOnce(left, requestId, n - 1);
      assert left - {requestId} == queues - {requestId};
    }
  }

  /** A request asked on until there is no more is answered with every page once, in order; only the last says that
      there is no more, and nothing of the request is kept. */
  lemma EachPageOnce<T>(queues: map<string, seq<T>>, first: T, next: seq<T>, requestId: string)
    requires requestId !in queues
    ensures var (answer, left) := FirstServed(queues, first, next, requestId);
            var answers := [answer] + ServedInARow(left, requestId, |next|);
            && |answers| == |[first] + next|
            && (forall k :: 0 <= k < |answers| ==>
                  answers[k].Answer? && answers[k].page == ([first] + next)[k] && (answers[k].hasMore <==> k < |next|))
            && QueuesAfter(left, requestId, |next|) == queues
  {
    if next != [] {
      EachWaitingOnce(queues[requestId := next], requestId, |next|);
      assert queues[requestId := next] - {requestId} == queues;
    }
  }
}
