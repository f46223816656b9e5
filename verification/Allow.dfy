/**
 * The channel allowlist: the scan in channel_name_allowed, and what it means
 * to split a list on commas.
 */
module Allow {
  import opened Base
  import opened Mux

  predicate Bare(s: bytes) {
    COMMA !in s
  }

  /** The list a configuration would write for these names. */
  function Join(segs: seq<bytes>): bytes {
    if segs == [] then [] else if |segs| == 1 then segs[0] else segs[0] + [COMMA] + Join(segs[1..])
  }

  /** Up to the first comma there is one segment; behind it the rest of the list. */
  lemma {:induction false} SegmentsAtComma(acc: bytes, seg: bytes, rest: bytes)
    requires Bare(seg)
    ensures SegmentsFrom(acc, seg) == [acc + seg]
    ensures SegmentsFrom(acc, seg + [COMMA] + rest) == [acc + seg] + SegmentsFrom([], rest)
    decreases |seg|
  {
    var all := seg + [COMMA] + rest;
    if seg == [] {
      assert all[1..] == rest && acc + seg == acc;
    } else {
      SegmentsAtComma(acc + [seg[0]], seg[1..], rest);
      assert all[1..] == seg[1..] + [COMMA] + rest;
      assert acc + [seg[0]] + seg[1..] == acc + seg;
    }
  }

  /** Splitting undoes joining. */
  lemma {:induction false} SplitJoin(segs: seq<bytes>)
    requires segs != [] && forall i :: 0 <= i < |segs| ==> Bare(segs[i])
    ensures Segments(Join(segs)) == segs
  {
    assert [] + segs[0] == segs[0];
    if |segs| == 1 {
      SegmentsAtComma([], segs[0], []);
    } else {
      SegmentsAtComma([], segs[0], Join(segs[1..]));
      SplitJoin(segs[1..]);
      assert segs == [segs[0]] + segs[1..];
    }
  }

  lemma JoinCons(seg: bytes, rest: seq<bytes>)
    requires rest != []
    ensures Join([seg] + rest) == seg + [COMMA] + Join(rest)
  {
    assert ([seg] + rest)[1..] == rest;
  }

  /** Joining undoes splitting, and no segment holds a comma. */
  lemma {:induction false} JoinSplit(acc: bytes, list: bytes)
    requires Bare(acc)
    ensures var segs := SegmentsFrom(acc, list);
      segs != [] && (forall i :: 0 <= i < |segs| ==> Bare(segs[i])) && Join(segs) == acc + list
    decreases |list|
  {
    if list == [] {
      assert acc + list == acc;
    } else if list[0] == COMMA {
      var rest := SegmentsFrom([], list[1..]);
      JoinSplit([], list[1..]);
      JoinCons(acc, rest);
      hide Join;
      assert SegmentsFrom(acc, list) == [acc] + rest;
      assert acc + [COMMA] + ([] + list[1..]) == acc + list;
    } else {
      JoinSplit(acc + [list[0]], list[1..]);
      hide Join;
      assert SegmentsFrom(acc, list) == SegmentsFrom(acc + [list[0]], list[1..]);
      assert acc + [list[0]] + list[1..] == acc + list;
    }
  }

  /** A name is allowed if and only if it is not empty and is one of the names the list was joined from. */
  lemma AllowedIsListed(cfg: Config, names: seq<bytes>, name: bytes)
    requires names != [] && (forall i :: 0 <= i < |names| ==> Bare(names[i])) && cfg.allowed == Join(names)
    ensures NameAllowed(cfg, name) <==> name != [] && name in names
  {
    SplitJoin(names);
  }

  /** strchr from p on; the end of the list when there is no comma. */
  method NextComma(list: bytes, p: nat) returns (q: nat)
    requires p <= |list|
    ensures p <= q <= |list| && Bare(list[p..q]) && (q < |list| ==> list[q] == COMMA)
  {
    q := p;
    while q < |list| && list[q] != COMMA
      invariant p <= q <= |list| && Bare(list[p..q])
    {
      assert list[p..q + 1] == list[p..q] + [list[q]];
      q := q + 1;
    }
  }

  /** The scan's next segment is the split's next segment. */
  lemma NextSegment(list: bytes, p: nat, q: nat)
    requires p <= q <= |list| && Bare(list[p..q]) && (q < |list| ==> list[q] == COMMA)
    ensures Segments(list[p..]) == [list[p..q]] + (if q < |list| then Segments(list[q + 1..]) else [])
  {
    var seg, rest := list[p..q], if q < |list| then list[q + 1..] else [];
    SegmentsAtComma([], seg, rest);
    assert [] + seg == seg;
    assert list[p..] == if q < |list| then seg + [COMMA] + rest else seg;
  }

  /** channel_name_allowed */
  method ChannelNameAllowed(list: bytes, name: bytes) returns (allowed: bool)
    ensures allowed <==> name != [] && name in Segments(list)
  {
    hide Segments;
    if name == [] {
      return false;
    }
    var p := 0;
    assert list[0..] == list;
    while p < |list|
      invariant p <= |list| && (name in Segments(list) <==> name in Segments(list[p..]))
    {
      var q := NextComma(list, p);
      NextSegment(list, p, q);
      if q - p == |name| && list[p..q] == name {
        return true;
      }
      if q == |list| {
        return false;
      }
      p := q + 1;
    }
    EmptyList();
    assert list[p..] == [];
    return false;
  }

  lemma EmptyList()
    ensures Segments([]) == [[]]
  {
  }
}
