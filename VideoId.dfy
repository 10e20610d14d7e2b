/**
 * `extractVideoId` of client/src/App.tsx: the match of
 *   ^.*(youtu.be\/|v\/|u\/\w\/|embed\/|watch\?v=|&v=)([^#&?]*).*
 * followed by the check that group 2 is 11 characters long. The match is
 * spelled out as JavaScript runs it: the greedy leading `.*` backtracks from
 * the right, so the marker that wins is the rightmost one whose prefix holds no
 * line terminator (which `.` cannot match); `[^#&?]*` is greedy and the
 * trailing `.*` may match nothing, so group 2 is the longest run of characters
 * other than `#`, `&` and `?` after the marker.
 */
module VideoId {
  import opened Common

  /** The characters JavaScript's `.` does not match. */
  predicate IsLineTerminator(c: char)
  {
    c == '\n' || c == '\r' || c == '\U{2028}' || c == '\U{2029}'
  }

  /** `\w`. */
  predicate IsWordChar(c: char)
  {
    ('a' <= c <= 'z') || ('A' <= c <= 'Z') || ('0' <= c <= '9') || c == '_'
  }

  /** The characters that end group 2. */
  predicate EndsId(c: char)
  {
    c == '#' || c == '&' || c == '?'
  }

  /** The characters of a real YouTube video id. */
  predicate IsIdChar(c: char)
  {
    IsWordChar(c) || c == '-'
  }

  /**
   * The length of the alternative of group 1 that matches at `i`, if one does.
   * The alternatives start with different characters, so at most one can.
   */
  function MarkerAt(s: string, i: nat): (m: Option<nat>)
    ensures m.Some? ==> 2 <= m.value && i + m.value <= |s|
  {
    if i + 9 <= |s| && s[i] == 'y' && s[i..i + 5] == "youtu" && !IsLineTerminator(s[i + 5])
       && s[i + 6..i + 9] == "be/" then Some(9)
    else if i + 2 <= |s| && s[i] == 'v' && s[i + 1] == '/' then Some(2)
    else if i + 4 <= |s| && s[i] == 'u' && s[i + 1] == '/' && IsWordChar(s[i + 2]) && s[i + 3] == '/' then Some(4)
    else if i + 6 <= |s| && s[i] == 'e' && s[i..i + 6] == "embed/" then Some(6)
    else if i + 8 <= |s| && s[i] == 'w' && s[i..i + 8] == "watch?v=" then Some(8)
    else if i + 3 <= |s| && s[i] == '&' && s[i..i + 3] == "&v=" then Some(3)
    else None
  }

  /** The length of the longest prefix of `s` without a line terminator: how far the leading `.*` can reach. */
  function FirstBreak(s: string): (k: nat)
    ensures k <= |s|
    ensures forall j :: 0 <= j < k ==> !IsLineTerminator(s[j])
    ensures k < |s| ==> IsLineTerminator(s[k])
  {
    if s == [] || IsLineTerminator(s[0]) then 0 else 1 + FirstBreak(s[1..])
  }

  /** The rightmost position at or before `i` where a marker matches. */
  function LastMarker(s: string, i: nat): (p: Option<nat>)
    requires i <= |s|
    decreases i
    ensures p.Some? ==> p.value <= i && MarkerAt(s, p.value).Some?
    ensures p.Some? ==> forall q :: p.value < q <= i ==> MarkerAt(s, q).None?
    ensures p.None? ==> forall q :: 0 <= q <= i ==> MarkerAt(s, q).None?
  {
    if MarkerAt(s, i).Some? then Some(i)
    else if i == 0 then None
    else LastMarker(s, i - 1)
  }

  /** Where the greedy `[^#&?]*` starting at `j` stops. */
  function RunEnd(s: string, j: nat): (k: nat)
    requires j <= |s|
    decreases |s| - j
    ensures j <= k <= |s|
    ensures forall q :: j <= q < k ==> !EndsId(s[q])
    ensures k < |s| ==> EndsId(s[k])
  {
    if j == |s| || EndsId(s[j]) then j else RunEnd(s, j + 1)
  }

  /** Group 2 of the match, or None when the regular expression does not match. */
  function Group2(s: string): (g: Option<string>)
    ensures g.Some? <==> LastMarker(s, FirstBreak(s)).Some?
    ensures g.Some? ==> FollowsMarker(s, LastMarker(s, FirstBreak(s)).value, g.value)
    ensures g.Some? ==> forall c :: c in g.value ==> !EndsId(c)
    ensures g.Some? ==>
      var p := LastMarker(s, FirstBreak(s)).value;
      var j := p + MarkerAt(s, p).value;
      g.value == s[j..RunEnd(s, j)]
  {
    match LastMarker(s, FirstBreak(s))
    case None => None
    case Some(p) =>
      var j := p + MarkerAt(s, p).value;
      Some(s[j..RunEnd(s, j)])
  }

  /** Whether `id` stands in `s` right after a marker that starts at `p`. */
  predicate FollowsMarker(s: string, p: nat, id: string)
  {
    MarkerAt(s, p).Some? &&
    var j := p + MarkerAt(s, p).value;
    j + |id| <= |s| && s[j..j + |id|] == id
  }

  /** `extractVideoId`: group 2 when the URL is non-empty, matches, and group 2 has exactly 11 characters. */
  function ExtractVideoId(url: string): (r: Option<string>)
    ensures url == "" ==> r == None
    ensures r.Some? ==> |r.value| == 11
    ensures r.Some? ==> forall c :: c in r.value ==> !EndsId(c)
    ensures r.Some? ==> exists p: nat :: p <= FirstBreak(url) && FollowsMarker(url, p, r.value)
    ensures r.Some? <==> url != "" && Group2(url).Some? && |Group2(url).value| == 11
    ensures r.Some? ==> r == Group2(url)
  {
    if url == "" then None
    else
      match Group2(url)
      case None => None
      case Some(id) =>
        if |id| == 11 then
          assert FollowsMarker(url, LastMarker(url, FirstBreak(url)).value, id);
          Some(id)
        else None
  }

  /** The markers without a `\w` in them. */
  predicate IsLiteralMarker(m: string)
  {
    m == "youtu.be/" || m == "v/" || m == "embed/" || m == "watch?v=" || m == "&v="
  }

  /** A literal marker found at `p` is the one `MarkerAt` reports there. */
  lemma LiteralMarkerAt(s: string, p: nat, marker: string)
    requires IsLiteralMarker(marker)
    requires p + |marker| <= |s| && s[p..p + |marker|] == marker
    ensures MarkerAt(s, p) == Some(|marker|)
    ensures forall k :: p <= k < p + |marker| ==> !IsLineTerminator(s[k])
  {
    forall k | p <= k < p + |marker| ensures !IsLineTerminator(s[k]) {
      assert s[k] == marker[k - p];
      assert marker[k - p] in marker;
    }
    if marker == "youtu.be/" {
      assert s[p..p + 5] == marker[..5] == "youtu";
      assert s[p + 6..p + 9] == marker[6..] == "be/";
      assert s[p] == marker[0];
    } else if marker == "embed/" || marker == "watch?v=" || marker == "&v=" {
      assert s[p] == marker[0];
    } else {
      assert s[p] == 'v' && s[p + 1] == '/';
    }
  }

  /** Whether `c` can stand inside a marker after its first character as `/`, `?` or `&` can. */
  predicate IsMarkerPunctuation(c: char)
  {
    c == '/' || c == '?' || c == '&'
  }

  /** The six character pairs a marker can start with. */
  predicate StartPair(a: char, b: char)
  {
    || (a == 'y' && b == 'o') || (a == 'v' && b == '/') || (a == 'u' && b == '/')
    || (a == 'e' && b == 'm') || (a == 'w' && b == 'a') || (a == '&' && b == 'v')
  }

  /** No marker starts inside a literal marker: past its first character no pair is a start pair, and it ends in `/` or `=`. */
  lemma NoStartInsideLiteral(marker: string, o: nat)
    requires IsLiteralMarker(marker) && 1 <= o < |marker|
    ensures o + 1 < |marker| ==> !StartPair(marker[o], marker[o + 1])
    ensures o + 1 == |marker| ==> marker[o] == '/' || marker[o] == '='
  {
    if marker == "youtu.be/" {
      assert o in {1, 2, 3, 4, 5, 6, 7, 8};
    } else if marker == "embed/" {
      assert o in {1, 2, 3, 4, 5};
    } else if marker == "watch?v=" {
      assert o in {1, 2, 3, 4, 5, 6, 7};
    } else if marker == "&v=" {
      assert o in {1, 2};
    }
  }

  /** Every marker starts with one of six character pairs and holds a `/`, `?` or `&`. */
  lemma MarkerShape(s: string, q: nat)
    requires MarkerAt(s, q).Some?
    ensures q + 1 < |s|
    ensures StartPair(s[q], s[q + 1])
    ensures exists k :: q <= k < q + MarkerAt(s, q).value && IsMarkerPunctuation(s[k])
  {
    var m := MarkerAt(s, q).value;
    if m == 9 {
      assert s[q..q + 5][0] == 'y' && s[q..q + 5][1] == 'o' && s[q + 6..q + 9][2] == '/';
      assert IsMarkerPunctuation(s[q + 8]);
    } else if m == 2 {
      assert s[q..q + 2][0] == 'v' && s[q..q + 2][1] == '/';
      assert IsMarkerPunctuation(s[q + 1]);
    } else if m == 4 {
      assert IsMarkerPunctuation(s[q + 1]);
    } else if m == 6 {
      assert s[q..q + 6][0] == 'e' && s[q..q + 6][1] == 'm' && s[q..q + 6][5] == '/';
      assert IsMarkerPunctuation(s[q + 5]);
    } else if m == 8 {
      assert s[q..q + 8][0] == 'w' && s[q..q + 8][1] == 'a' && s[q..q + 8][5] == '?';
      assert IsMarkerPunctuation(s[q + 5]);
    } else {
      assert s[q..q + 3][0] == '&' && s[q..q + 3][1] == 'v';
      assert IsMarkerPunctuation(s[q]);
    }
  }

  lemma NoMarkerWithoutStartPair(s: string, q: nat)
    requires q + 1 < |s| ==> !StartPair(s[q], s[q + 1])
    ensures MarkerAt(s, q).None?
  {
    if MarkerAt(s, q).Some? {
      MarkerShape(s, q);
    }
  }

  lemma NoMarkerWithoutPunctuation(s: string, q: nat)
    requires forall k :: q <= k < |s| ==> !IsMarkerPunctuation(s[k])
    ensures MarkerAt(s, q).None?
  {
    if MarkerAt(s, q).Some? {
      MarkerShape(s, q);
    }
  }

  /** Whether `id` has the length and the characters of a real YouTube video id. */
  predicate IsCanonicalId(id: string)
  {
    |id| == 11 && forall c :: c in id ==> IsIdChar(c)
  }

  lemma NoBreakInUrl(prefix: string, marker: string, id: string)
    requires forall c :: c in prefix ==> !IsLineTerminator(c)
    requires IsLiteralMarker(marker) && IsCanonicalId(id)
    ensures FirstBreak(prefix + marker + id) == |prefix + marker + id|
  {
    var s := prefix + marker + id;
    var p, j := |prefix|, |prefix| + |marker|;
    assert s[p..j] == marker;
    LiteralMarkerAt(s, p, marker);
    forall k | 0 <= k < |s| ensures !IsLineTerminator(s[k]) {
      if k < p {
        assert s[k] == prefix[k] && prefix[k] in prefix;
      } else if k >= j {
        assert s[k] == id[k - j] && id[k - j] in id;
      }
    }
  }

  lemma NoMarkerAfter(prefix: string, marker: string, id: string, q: nat)
    requires IsLiteralMarker(marker) && IsCanonicalId(id)
    requires |prefix| < q <= |prefix + marker + id|
    ensures MarkerAt(prefix + marker + id, q).None?
  {
    var s := prefix + marker + id;
    var p, j := |prefix|, |prefix| + |marker|;
    if q < j {
      NoStartInsideLiteral(marker, q - p);
      assert s[q] == marker[q - p];
      if q + 1 < j {
        assert s[q + 1] == marker[q + 1 - p];
      }
      NoMarkerWithoutStartPair(s, q);
    } else {
      forall k | q <= k < |s| ensures !IsMarkerPunctuation(s[k]) {
        assert s[k] == id[k - j] && id[k - j] in id;
      }
      NoMarkerWithoutPunctuation(s, q);
    }
  }

  /**
   * Round trip: a prefix without line terminators, a marker and a real 11-character
   * video id give back exactly that id, whatever the prefix holds.
   */
  lemma {:induction false} ExtractsIdAfterMarker(prefix: string, marker: string, id: string)
    requires forall c :: c in prefix ==> !IsLineTerminator(c)
    requires IsLiteralMarker(marker) && IsCanonicalId(id)
    ensures ExtractVideoId(prefix + marker + id) == Some(id)
  {
    var s := prefix + marker + id;
    var p, j := |prefix|, |prefix| + |marker|;
    assert s[p..j] == marker;
    LiteralMarkerAt(s, p, marker);
    NoBreakInUrl(prefix, marker, id);
    forall q | p < q <= |s| ensures MarkerAt(s, q).None? {
      NoMarkerAfter(prefix, marker, id, q);
    }
    assert LastMarker(s, |s|) == Some(p);
    forall k | j <= k < |s| ensures !EndsId(s[k]) {
      assert s[k] == id[k - j] && id[k - j] in id;
    }
    assert RunEnd(s, j) == |s|;
    assert s[j..|s|] == id;
    assert Group2(s) == Some(id);
  }
}
