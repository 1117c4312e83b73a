/** `extract_video_id` of the GUI entry point: a leftmost regular-expression
    search for `v=` or `youtu.be/` followed by exactly eleven characters of
    `[a-zA-Z0-9_-]`, returning that group or `None`. */
module VideoId {
  import opened Wrappers

  /** The character class `[a-zA-Z0-9_-]`. */
  predicate IsIdChar(c: char)
  {
    ('a' <= c <= 'z') || ('A' <= c <= 'Z') || ('0' <= c <= '9') || c == '_' || c == '-'
  }

  /** Eleven characters of the class. */
  predicate IsId(id: string)
  {
    |id| == 11 && forall k | 0 <= k < |id| :: IsIdChar(id[k])
  }

  /** `w` occurs in `url` starting at position `i`. */
  predicate OccursAt(url: string, i: nat, w: string)
  {
    i + |w| <= |url| && url[i..i + |w|] == w
  }

  /** The pattern matches `url` at position `i` with `id` as its group. The
      dot of `youtu.be` is escaped in the pattern, so it is a literal dot. */
  predicate MatchesAt(url: string, i: nat, id: string)
  {
    IsId(id) && (OccursAt(url, i, "v=" + id) || OccursAt(url, i, "youtu.be/" + id))
  }

  /** No match starts at a position in `[from, to)`. */
  ghost predicate NoMatchBetween(url: string, from: nat, to: int)
  {
    forall k: nat, id | from <= k < to :: !MatchesAt(url, k, id)
  }

  /** The attempt of the regular-expression engine at position `i`: the
      first alternative, then the second. Both cannot apply at one position,
      since one starts with `v` and the other with `y`. */
  function MatchAt(url: string, i: nat): (r: Option<string>)
    ensures r.Some? ==> MatchesAt(url, i, r.value)
    ensures forall id | MatchesAt(url, i, id) :: r == Some(id)
  {
    if i + 13 <= |url| && url[i..i + 2] == "v=" && IsId(url[i + 2..i + 13]) then
      assert url[i..i + 13] == "v=" + url[i + 2..i + 13];
      MatchAtUnique(url, i);
      Some(url[i + 2..i + 13])
    else if i + 20 <= |url| && url[i..i + 9] == "youtu.be/" && IsId(url[i + 9..i + 20]) then
      assert url[i..i + 20] == "youtu.be/" + url[i + 9..i + 20];
      MatchAtUnique(url, i);
      Some(url[i + 9..i + 20])
    else
      MatchAtUnique(url, i);
      None
  }

  /** Whatever group matches at `i` is the one `MatchAt` reads there. */
  lemma MatchAtUnique(url: string, i: nat)
    ensures forall id | MatchesAt(url, i, id) ::
      (url[i] == 'v' && url[i..i + 2] == "v=" && id == url[i + 2..i + 13] && i + 13 <= |url|)
      || (url[i] == 'y' && url[i..i + 9] == "youtu.be/" && id == url[i + 9..i + 20] && i + 20 <= |url|)
  {
    forall id | MatchesAt(url, i, id)
      ensures (url[i] == 'v' && url[i..i + 2] == "v=" && id == url[i + 2..i + 13] && i + 13 <= |url|)
           || (url[i] == 'y' && url[i..i + 9] == "youtu.be/" && id == url[i + 9..i + 20] && i + 20 <= |url|)
    {
      if OccursAt(url, i, "v=" + id) {
        var w := "v=" + id;
        assert url[i] == w[0];
        assert url[i..i + 2] == w[..2];
        assert url[i + 2..i + 13] == w[2..];
      } else {
        var w := "youtu.be/" + id;
        assert url[i] == w[0];
        assert url[i..i + 9] == w[..9];
        assert url[i + 9..i + 20] == w[9..];
      }
    }
  }

  /** The search from position `i` on: the first position where the
      pattern matches decides the result. */
  function SearchFrom(url: string, i: nat): (r: Option<string>)
    requires i <= |url|
    ensures r.None? <==> NoMatchBetween(url, i, |url| + 1)
    ensures r.Some? ==> exists j: nat | i <= j :: MatchesAt(url, j, r.value) && NoMatchBetween(url, i, j)
    decreases |url| - i
  {
    var m := MatchAt(url, i);
    if m.Some? then
      assert NoMatchBetween(url, i, i);
      m
    else if i == |url| then
      None
    else
      var r := SearchFrom(url, i + 1);
      SearchStep(url, i, r);
      r
  }

  /** A position where nothing matches can be put in front of the positions
      searched after it. */
  lemma SearchStep(url: string, i: nat, r: Option<string>)
    requires MatchAt(url, i).None?
    requires r.Some? ==> exists j: nat | i + 1 <= j :: MatchesAt(url, j, r.value) && NoMatchBetween(url, i + 1, j)
    ensures r.Some? ==> exists j: nat | i <= j :: MatchesAt(url, j, r.value) && NoMatchBetween(url, i, j)
  {
    if r.Some? {
      var j: nat :| i + 1 <= j && MatchesAt(url, j, r.value) && NoMatchBetween(url, i + 1, j);
      assert NoMatchBetween(url, i, j);
    }
  }

  /** `extract_video_id(url)`: `None` exactly when the pattern matches
      nowhere; otherwise the eleven-character group of the leftmost match. */
  function ExtractVideoId(url: string): (r: Option<string>)
    ensures r.None? <==> forall i: nat, id :: !MatchesAt(url, i, id)
    ensures r.Some? ==> IsId(r.value)
    ensures r.Some? ==> exists i: nat :: MatchesAt(url, i, r.value) && NoMatchBetween(url, 0, i)
  {
    NoMatchPastEnd(url);
    SearchFrom(url, 0)
  }

  /** A match needs at least thirteen characters from its start. */
  lemma NoMatchPastEnd(url: string)
    ensures forall i: nat, id | MatchesAt(url, i, id) :: i + 13 <= |url|
  {
  }

  /** The pattern has no end anchor: text appended after a URL that already
      holds a match does not change the result. */
  lemma AppendIgnored(url: string, suffix: string)
    requires ExtractVideoId(url).Some?
    ensures ExtractVideoId(url + suffix) == ExtractVideoId(url)
  {
    var id := ExtractVideoId(url).value;
    var i: nat :| MatchesAt(url, i, id) && NoMatchBetween(url, 0, i);
    var long := url + suffix;
    MatchExtends(url, suffix, i, id);
    forall j: nat, other | j < i
      ensures !MatchesAt(long, j, other)
    {
      if MatchesAt(long, j, other) {
        NoEarlierOverhang(url, suffix, i, id, j, other);
      }
    }
    var r := ExtractVideoId(long);
    assert !(forall k: nat, x :: !MatchesAt(long, k, x));
    var i': nat :| MatchesAt(long, i', r.value) && NoMatchBetween(long, 0, i');
    assert i <= i' && i' <= i;
    MatchAtUnique(long, i);
  }

  /** A match in `url` is still a match, with the same group, once text is
      appended. */
  lemma MatchExtends(url: string, suffix: string, i: nat, id: string)
    requires MatchesAt(url, i, id)
    ensures MatchesAt(url + suffix, i, id)
  {
    var long := url + suffix;
    if OccursAt(url, i, "v=" + id) {
      assert long[i..i + 13] == url[i..i + 13];
    } else {
      assert long[i..i + 20] == url[i..i + 20];
    }
  }

  /** A match in `url + suffix` that starts before a match lying wholly in
      `url` lies wholly in `url` itself: a `v=` match starting earlier
      ends earlier, and a `youtu.be/` match that reached past the end would
      put a `v` inside `youtu.b`, which holds none. */
  lemma NoEarlierOverhang(url: string, suffix: string, i: nat, id: string, j: nat, other: string)
    requires MatchesAt(url, i, id)
    requires j < i && MatchesAt(url + suffix, j, other)
    ensures MatchesAt(url, j, other)
  {
    var long := url + suffix;
    MatchAtUnique(url, i);
    MatchAtUnique(long, j);
    assert j + 9 <= |long| && i < j + 9 ==> long[i] == long[j..j + 9][i - j];
    if long[j] == 'v' {
      assert long[j..j + 13] == url[j..j + 13];
    } else if j + 20 <= |url| {
      assert long[j..j + 20] == url[j..j + 20];
    } else {
      assert false;
    }
  }

  /** A short link with a query after the id. */
  lemma ShortLinkExample()
    ensures ExtractVideoId("youtu.be/dQw4w9WgXcQ?t=42") == Some("dQw4w9WgXcQ")
  {
    var url := "youtu.be/dQw4w9WgXcQ?t=42";
    var id := "dQw4w9WgXcQ";
    assert url[0..20] == "youtu.be/" + id;
    assert MatchesAt(url, 0, id);
    MatchAtUnique(url, 0);
  }

  /** Too few id characters after `v=`: no match. */
  lemma ShortIdExample()
    ensures ExtractVideoId("watch?v=short") == None
  {
    var url := "watch?v=short";
    forall i: nat, id ensures !MatchesAt(url, i, id) {
      NoMatchPastEnd(url);
      MatchAtUnique(url, i);
    }
  }
}
