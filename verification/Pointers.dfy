// JSON Pointers: escaping segments, joining and splitting them (src/core/responsePolicies.ts,
// src/model/patches.ts; sections 3 and 4 of RFC 6901).
module Pointers {

  // ------------------------------------------------------------- escaping

  /** `s.replace(/c/g, with)`. */
  function ReplaceChar(s: string, c: char, with: string): string {
    if s == "" then "" else (if s[0] == c then with else [s[0]]) + ReplaceChar(s[1..], c, with)
  }

  /** `s.replace(/~d/g, with)`, scanning from the left. */
  function ReplaceTilde(s: string, d: char, with: char): string {
    if |s| >= 2 && s[0] == '~' && s[1] == d then [with] + ReplaceTilde(s[2..], d, with)
    else if s == "" then ""
    else [s[0]] + ReplaceTilde(s[1..], d, with)
  }

  function Escape(segment: string): string {
    ReplaceChar(ReplaceChar(segment, '~', "~0"), '/', "~1")
  }

  function Unescape(segment: string): string {
    ReplaceTilde(ReplaceTilde(segment, '1', '/'), '0', '~')
  }

  lemma {:induction false} ReplaceCharAppend(a: string, b: string, c: char, with: string)
    ensures ReplaceChar(a + b, c, with) == ReplaceChar(a, c, with) + ReplaceChar(b, c, with)
  {
    if a == "" {
      assert a + b == b;
    } else {
      assert (a + b)[1..] == a[1..] + b;
      ReplaceCharAppend(a[1..], b, c, with);
    }
  }

  /** What one character escapes to. */
  function EscapedChar(c: char): string {
    if c == '~' then "~0" else if c == '/' then "~1" else [c]
  }

  lemma EscapeFirst(s: string)
    requires s != ""
    ensures Escape(s) == EscapedChar(s[0]) + Escape(s[1..])
  {
    var first := if s[0] == '~' then "~0" else [s[0]];
    var rest := ReplaceChar(s[1..], '~', "~0");
    ReplaceCharAppend(first, rest, '/', "~1");
    if s[0] == '~' {
      assert "~0"[1..] == "0" && "0"[1..] == "";
      assert ReplaceChar("~0", '/', "~1") == "~0";
    } else {
      assert [s[0]][1..] == "";
    }
  }

  lemma {:induction false} EscapedHasNoSlash(s: string)
    ensures '/' !in Escape(s)
  {
    if s != "" {
      EscapeFirst(s);
      EscapedHasNoSlash(s[1..]);
    }
  }

  lemma FirstPassOne(c: char, rest: string)
    ensures ReplaceTilde(EscapedChar(c) + rest, '1', '/')
         == (if c == '~' then "~0" else [c]) + ReplaceTilde(rest, '1', '/')
  {
    var whole := EscapedChar(c) + rest;
    if c == '~' {
      assert whole[1..] == "0" + rest;
      assert ("0" + rest)[1..] == rest;
      calc {
        ReplaceTilde(whole, '1', '/');
        "~" + ReplaceTilde("0" + rest, '1', '/');
        "~" + ("0" + ReplaceTilde(rest, '1', '/'));
        "~0" + ReplaceTilde(rest, '1', '/');
      }
    } else if c == '/' {
      assert whole[2..] == rest;
    } else {
      assert whole[1..] == rest;
    }
  }

  lemma {:induction false} FirstPass(s: string)
    ensures ReplaceTilde(Escape(s), '1', '/') == ReplaceChar(s, '~', "~0")
  {
    hide ReplaceTilde;
    if s != "" {
      EscapeFirst(s);
      FirstPass(s[1..]);
      FirstPassOne(s[0], Escape(s[1..]));
    } else {
      NothingToReplace();
    }
  }

  lemma NothingToReplace()
    ensures ReplaceTilde(Escape(""), '1', '/') == ""
  {}

  lemma {:induction false} SecondPass(s: string)
    ensures ReplaceTilde(ReplaceChar(s, '~', "~0"), '0', '~') == s
  {
    if s != "" {
      SecondPass(s[1..]);
      var rest := ReplaceChar(s[1..], '~', "~0");
      if s[0] == '~' {
        assert ("~0" + rest)[2..] == rest;
      } else {
        assert ([s[0]] + rest)[1..] == rest;
      }
      assert [s[0]] + s[1..] == s;
    }
  }

  /** Unescaping undoes escaping, for every segment. */
  lemma UnescapeEscape(s: string)
    ensures Unescape(Escape(s)) == s
  {
    FirstPass(s);
    SecondPass(s);
  }

  // ------------------------------------------------------------- joining and splitting

  function Join(segments: seq<string>): string {
    if segments == [] then "" else Join(segments[..|segments| - 1]) + "/" + Escape(segments[|segments| - 1])
  }

  /** `s.split('/')`. */
  function Split(s: string): (parts: seq<string>)
    ensures |parts| >= 1
  {
    if s == "" then [""]
    else
      var rest := Split(s[1..]);
      if s[0] == '/' then [""] + rest else [[s[0]] + rest[0]] + rest[1..]
  }

  function UnescapeAll(parts: seq<string>): (segments: seq<string>)
    ensures |segments| == |parts|
    ensures forall i :: 0 <= i < |parts| ==> segments[i] == Unescape(parts[i])
  {
    seq(|parts|, i requires 0 <= i < |parts| => Unescape(parts[i]))
  }

  /** A pointer's segments; anything after the first character of a non-empty pointer is split. */
  function Segments(pointer: string): seq<string> {
    if pointer == "" then [] else UnescapeAll(Split(pointer[1..]))
  }

  lemma {:induction false} SplitAppend(s: string, part: string)
    requires '/' !in part
    ensures Split(s + "/" + part) == Split(s) + [part]
  {
    if s == "" {
      assert s + "/" + part == "/" + part;
      assert ("/" + part)[1..] == part;
      SplitPlain(part);
    } else {
      assert (s + "/" + part)[1..] == s[1..] + "/" + part;
      SplitAppend(s[1..], part);
      assert (s + "/" + part)[0] == s[0];
    }
  }

  lemma {:induction false} SplitPlain(part: string)
    requires '/' !in part
    ensures Split(part) == [part]
  {
    if part != "" {
      SplitPlain(part[1..]);
      assert [part[0]] + part[1..] == part;
    }
  }

  lemma SegmentsOfLonger(pointer: string, part: string)
    requires '/' !in part
    ensures Segments(pointer + "/" + part) == Segments(pointer) + [Unescape(part)]
  {
    hide Unescape;
    var longer := pointer + "/" + part;
    if pointer == "" {
      assert longer[1..] == part;
      SplitPlain(part);
    } else {
      assert longer[1..] == pointer[1..] + "/" + part;
      SplitAppend(pointer[1..], part);
    }
  }

  /** Splitting a joined pointer gives the segments back, whatever characters they hold. */
  lemma {:induction false} SegmentsOfJoin(segments: seq<string>)
    ensures Segments(Join(segments)) == segments
  {
    hide Escape, Unescape, Split;
    if segments != [] {
      var init, last := segments[..|segments| - 1], segments[|segments| - 1];
      SegmentsOfJoin(init);
      EscapedHasNoSlash(last);
      UnescapeEscape(last);
      SegmentsOfLonger(Join(init), Escape(last));
      assert segments == init + [last];
    }
  }

  // ------------------------------------------------------------- the pointer parser trims

  function TrimEnd(s: string, space: char -> bool): string {
    if s != "" && space(s[|s| - 1]) then TrimEnd(s[..|s| - 1], space) else s
  }

  /** parsePointer reads the pointer after trimming white space; a pointer starts with a slash. */
  function ParsePointer(pointer: string, space: char -> bool): seq<string> {
    Segments(TrimEnd(pointer, space))
  }

  lemma EscapeAppend(a: string, b: string)
    ensures Escape(a + b) == Escape(a) + Escape(b)
  {
    ReplaceCharAppend(a, b, '~', "~0");
    ReplaceCharAppend(ReplaceChar(a, '~', "~0"), ReplaceChar(b, '~', "~0"), '/', "~1");
  }

  lemma EscapeOne(c: char)
    ensures Escape([c]) == EscapedChar(c)
  {
    EscapeFirst([c]);
    assert [c][1..] == "" && Escape("") == "";
  }

  /** None of the characters escaping introduces is white space. */
  predicate Apart(space: char -> bool) {
    !space('/') && !space('~') && !space('0') && !space('1')
  }

  lemma {:induction false} TrimEscaped(s: string, space: char -> bool)
    requires Apart(space)
    ensures TrimEnd(Escape(s), space) == Escape(TrimEnd(s, space))
    decreases |s|
  {
    if s != "" {
      var init, c := s[..|s| - 1], s[|s| - 1];
      assert s == init + [c];
      EscapeAppend(init, [c]);
      EscapeOne(c);
      var escaped := Escape(s);
      assert escaped[|escaped| - 1] == EscapedChar(c)[|EscapedChar(c)| - 1];
      if space(c) {
        assert escaped[..|escaped| - 1] == Escape(init);
        TrimEscaped(init, space);
      }
    } else {
      assert Escape("") == "";
    }
  }

  lemma {:induction false} TrimStops(head: string, tail: string, space: char -> bool)
    requires head != "" && !space(head[|head| - 1])
    ensures TrimEnd(head + tail, space) == head + TrimEnd(tail, space)
    decreases |tail|
  {
    if tail == "" {
      assert head + tail == head;
    } else {
      assert (head + tail)[..|head + tail| - 1] == head + tail[..|tail| - 1];
      if space(tail[|tail| - 1]) { TrimStops(head, tail[..|tail| - 1], space); }
    }
  }

  lemma {:induction false} TrimShortens(s: string, space: char -> bool)
    ensures |TrimEnd(s, space)| <= |s|
    ensures TrimEnd(s, space) == s <==> s == "" || !space(s[|s| - 1])
  {
    if s != "" && space(s[|s| - 1]) { TrimShortens(s[..|s| - 1], space); }
  }

  lemma JoinLast(init: seq<string>, last: string)
    ensures Join(init + [last]) == Join(init) + "/" + Escape(last)
  {
    assert (init + [last])[..|init|] == init;
  }

  lemma TrimLast(init: seq<string>, last: string, space: char -> bool)
    requires Apart(space)
    ensures ParsePointer(Join(init + [last]), space) == init + [TrimEnd(last, space)]
  {
    hide Escape, Join, Segments, TrimEnd;
    JoinLast(init, last);
    TrimStops(Join(init) + "/", Escape(last), space);
    TrimEscaped(last, space);
    JoinLast(init, TrimEnd(last, space));
    SegmentsOfJoin(init + [TrimEnd(last, space)]);
  }

  /** Parsing a joined pointer trims white space off the end of its last segment: it gives the
      segments back exactly when that segment does not end in white space. */
  lemma ParseOfJoin(segments: seq<string>, space: char -> bool)
    requires Apart(space) && segments != []
    ensures var last := segments[|segments| - 1];
            && ParsePointer(Join(segments), space) == segments[..|segments| - 1] + [TrimEnd(last, space)]
            && (ParsePointer(Join(segments), space) == segments <==> last == "" || !space(last[|last| - 1]))
  {
    hide ParsePointer, Join, TrimEnd;
    var init, last := segments[..|segments| - 1], segments[|segments| - 1];
    assert segments == init + [last];
    TrimLast(init, last, space);
    TrimShortens(last, space);
    var trimmed := init + [TrimEnd(last, space)];
    assert trimmed[|segments| - 1] == TrimEnd(last, space);
  }
}
