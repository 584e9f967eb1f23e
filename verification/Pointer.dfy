/** JSON pointers: escaping and parsing of paths (sections 3 and 4 of RFC 6901). */
module Pointers {
  import opened Basics

  /** `str::replace` of one character. */
  function Replace(s: string, ch: char, with: string): string {
    if |s| == 0 then ""
    else (if s[0] == ch then with else [s[0]]) + Replace(s[1..], ch, with)
  }

  /** The escape of a segment, character by character. */
  function Escape(s: string): string {
    if |s| == 0 then ""
    else (if s[0] == '~' then "~0" else if s[0] == '/' then "~1" else [s[0]]) + Escape(s[1..])
  }

  lemma {:induction false} ReplaceAppend(a: string, b: string, ch: char, with: string)
    ensures Replace(a + b, ch, with) == Replace(a, ch, with) + Replace(b, ch, with)
  {
    if |a| == 0 {
      assert a + b == b;
    } else {
      ReplaceAppend(a[1..], b, ch, with);
      assert (a + b)[1..] == a[1..] + b && (a + b)[0] == a[0];
      var head := if a[0] == ch then with else [a[0]];
      assert head + (Replace(a[1..], ch, with) + Replace(b, ch, with)) == (head + Replace(a[1..], ch, with)) + Replace(b, ch, with);
    }
  }

  /** The two-pass replacement escapes each character on its own. */
  lemma {:induction false} EscapeIsReplace(s: string)
    ensures Replace(Replace(s, '~', "~0"), '/', "~1") == Escape(s)
  {
    if |s| > 0 {
      EscapeIsReplace(s[1..]);
      var head := if s[0] == '~' then "~0" else [s[0]];
      ReplaceAppend(head, Replace(s[1..], '~', "~0"), '/', "~1");
      if s[0] == '~' {
        assert Replace("~0", '/', "~1") == ['~'] + Replace("~0"[1..], '/', "~1");
        assert Replace("0", '/', "~1") == ['0'] + Replace("0"[1..], '/', "~1");
        assert "~0"[1..] == "0";
      } else {
        assert [s[0]][1..] == "";
      }
    }
  }

  /** `push_pointer_segment` */
  method PushPointerSegment(path: string, segment: string) returns (r: string)
    ensures r == path + "/" + Escape(segment)
  {
    r := path + ['/'];
    EscapeIsReplace(segment);
    r := r + Replace(Replace(segment, '~', "~0"), '/', "~1");
  }

  /** A path made of segments, one push after the other. */
  function Build(segments: seq<string>): string {
    if |segments| == 0 then ""
    else Build(segments[..|segments| - 1]) + "/" + Escape(segments[|segments| - 1])
  }

  // ----- Parsing

  function Prepend(ch: char, r: Option<string>): Option<string> {
    if r.Some? then Some([ch] + r.value) else None
  }

  /** What one segment decodes to; None for a tilde not followed by 0 or 1. */
  function Decode(s: string): Option<string> {
    if |s| == 0 then Some("")
    else if s[0] != '~' then Prepend(s[0], Decode(s[1..]))
    else if |s| > 1 && s[1] == '0' then Prepend('~', Decode(s[2..]))
    else if |s| > 1 && s[1] == '1' then Prepend('/', Decode(s[2..]))
    else None
  }

  lemma AppendOne(a: string, ch: char)
    ensures forall b: string :: a + ([ch] + b) == a + [ch] + b
  {
  }

  /** `decode_pointer_segment`: the loop over the characters. */
  method DecodePointerSegment(segment: string) returns (r: Option<string>)
    ensures r == Decode(segment)
  {
    var decoded, i := "", 0;
    assert segment[0..] == segment;
    assert Decode(segment).Some? ==> "" + Decode(segment).value == Decode(segment).value;
    while i < |segment|
      invariant 0 <= i <= |segment|
      invariant Decode(segment) == match Decode(segment[i..]) { case None => None case Some(rest) => Some(decoded + rest) }
    {
      var ch := segment[i];
      assert segment[i..][1..] == segment[i + 1..];
      i := i + 1;
      if ch != '~' {
        AppendOne(decoded, ch);
        decoded := decoded + [ch];
      } else {
        if i < |segment| { assert segment[i - 1..][2..] == segment[i + 1..]; }
        if i < |segment| && segment[i] == '0' {
          AppendOne(decoded, '~');
          decoded := decoded + ['~'];
        } else if i < |segment| && segment[i] == '1' {
          AppendOne(decoded, '/');
          decoded := decoded + ['/'];
        } else {
          return None;
        }
        i := i + 1;
      }
    }
    assert segment[i..] == "" && decoded + "" == decoded;
    r := Some(decoded);
  }

  function Split(s: string): (r: seq<string>)
    ensures |r| > 0
  {
    if |s| == 0 then [""]
    else if s[0] == '/' then [""] + Split(s[1..])
    else var rest := Split(s[1..]); [[s[0]] + rest[0]] + rest[1..]
  }

  function DecodeAll(segments: seq<string>): Option<seq<string>> {
    if |segments| == 0 then Some([])
    else match Decode(segments[0])
         case None => None
         case Some(d) => match DecodeAll(segments[1..])
                         case None => None
                         case Some(rest) => Some([d] + rest)
  }

  /** `parse_pointer` */
  function Parse(path: string): Option<seq<string>> {
    if |path| == 0 || path[0] != '/' || path == "/" then None
    else DecodeAll(Split(path[1..]))
  }

  // ----- Inverses

  function Join(segments: seq<string>): string
    requires |segments| > 0
  {
    if |segments| == 1 then segments[0] else segments[0] + "/" + Join(segments[1..])
  }

  predicate NoSlash(s: string) { forall i :: 0 <= i < |s| ==> s[i] != '/' }

  lemma {:induction false} SplitOfJoin(head: string, tail: seq<string>)
    requires NoSlash(head) && forall i :: 0 <= i < |tail| ==> NoSlash(tail[i])
    ensures Split(Join([head] + tail)) == [head] + tail
    decreases |tail|, |head|
  {
    var s := Join([head] + tail);
    assert ([head] + tail)[1..] == tail;
    if |head| > 0 {
      SplitOfJoin(head[1..], tail);
      assert ([head[1..]] + tail)[1..] == tail;
      assert s[1..] == Join([head[1..]] + tail);
      assert head == [head[0]] + head[1..];
      assert ([head[1..]] + tail)[0] == head[1..];
    } else if |tail| > 0 {
      assert s == "/" + Join(tail);
      assert tail == [tail[0]] + tail[1..];
      SplitOfJoin(tail[0], tail[1..]);
      assert s[1..] == Join(tail);
    }
  }

  lemma {:induction false} JoinOfSplit(s: string)
    ensures Join(Split(s)) == s
    ensures forall i :: 0 <= i < |Split(s)| ==> NoSlash(Split(s)[i])
  {
    if |s| > 0 {
      JoinOfSplit(s[1..]);
      var rest := Split(s[1..]);
      if s[0] == '/' {
        assert ([""] + rest)[1..] == rest;
      } else {
        assert ([[s[0]] + rest[0]] + rest[1..])[1..] == rest[1..];
      }
      assert s == [s[0]] + s[1..];
    }
  }

  lemma {:induction false} EscapeNoSlash(s: string)
    ensures NoSlash(Escape(s))
  {
    if |s| == 0 {
    } else {
      EscapeNoSlash(s[1..]);
    }
  }

  lemma {:induction false} DecodeOfEscape(s: string)
    ensures Decode(Escape(s)) == Some(s)
  {
    if |s| > 0 {
      DecodeOfEscape(s[1..]);
      var e := Escape(s);
      if s[0] == '~' || s[0] == '/' { assert e[2..] == Escape(s[1..]); }
      else { assert e[1..] == Escape(s[1..]); }
      assert s == [s[0]] + s[1..];
    }
  }

  lemma {:induction false} EscapeOfDecode(s: string)
    requires NoSlash(s) && Decode(s).Some?
    ensures Escape(Decode(s).value) == s
  {
    if |s| > 0 {
      var d := Decode(s).value;
      if s[0] != '~' {
        EscapeOfDecode(s[1..]);
        assert d[1..] == Decode(s[1..]).value;
        assert s == [s[0]] + s[1..];
      } else {
        EscapeOfDecode(s[2..]);
        assert d[1..] == Decode(s[2..]).value;
        assert s == [s[0], s[1]] + s[2..];
      }
    }
  }

  function EscapeAll(segments: seq<string>): (r: seq<string>)
    ensures |r| == |segments|
  {
    seq(|segments|, i requires 0 <= i < |segments| => Escape(segments[i]))
  }

  lemma {:induction false} JoinAppend(a: seq<string>, last: string)
    requires |a| > 0
    ensures Join(a + [last]) == Join(a) + "/" + last
  {
    if |a| == 1 {
      assert a + [last] == [a[0], last];
      assert [a[0], last][1..] == [last];
    } else {
      assert (a + [last])[1..] == a[1..] + [last];
      JoinAppend(a[1..], last);
    }
  }

  /** A built path is a slash and the escaped segments joined by slashes. */
  lemma {:induction false} BuildIsJoin(segments: seq<string>)
    requires |segments| > 0
    ensures Build(segments) == "/" + Join(EscapeAll(segments))
  {
    var n := |segments| - 1;
    if n > 0 {
      BuildIsJoin(segments[..n]);
      assert EscapeAll(segments) == EscapeAll(segments[..n]) + [Escape(segments[n])];
      JoinAppend(EscapeAll(segments[..n]), Escape(segments[n]));
    } else {
      assert Build(segments[..0]) == "";
    }
  }

  lemma {:induction false} DecodeAllOfEscape(segments: seq<string>)
    ensures DecodeAll(EscapeAll(segments)) == Some(segments)
  {
    if |segments| == 0 {
    } else {
      DecodeOfEscape(segments[0]);
      DecodeAllOfEscape(segments[1..]);
      assert EscapeAll(segments)[1..] == EscapeAll(segments[1..]);
      assert segments == [segments[0]] + segments[1..];
    }
  }

  lemma {:induction false} EscapeAllOfDecode(parts: seq<string>)
    requires DecodeAll(parts).Some? && forall i :: 0 <= i < |parts| ==> NoSlash(parts[i])
    ensures EscapeAll(DecodeAll(parts).value) == parts
  {
    if |parts| == 0 {
    } else {
      EscapeOfDecode(parts[0]);
      assert forall i :: 0 <= i < |parts[1..]| ==> parts[1..][i] == parts[i + 1];
      EscapeAllOfDecode(parts[1..]);
      var d := DecodeAll(parts).value;
      assert EscapeAll(d) == [Escape(d[0])] + EscapeAll(d[1..]);
    }
  }

  /** Parsing gives the segments back for every list except the empty one and the single empty name. */
  lemma ParseAfterBuild(segments: seq<string>)
    ensures Parse(Build(segments)) == Some(segments) <==> segments != [] && segments != [""]
  {
    if |segments| > 0 {
      BuildIsJoin(segments);
      var parts := EscapeAll(segments);
      forall i | 0 <= i < |parts| ensures NoSlash(parts[i]) { EscapeNoSlash(segments[i]); }
      assert parts == [parts[0]] + parts[1..];
      SplitOfJoin(parts[0], parts[1..]);
      DecodeAllOfEscape(segments);
      assert Build(segments)[1..] == Join(parts);
      if Build(segments) == "/" {
        assert parts == Split("");
        assert segments == [segments[0]];
        DecodeOfEscape(segments[0]);
      }
      if segments == [""] {
        assert parts == [""];
      }
    }
  }

  /** Escaping what was parsed gives the path back, for every path that is accepted. */
  lemma BuildAfterParse(path: string)
    requires Parse(path).Some?
    ensures Parse(path).value != [] && Build(Parse(path).value) == path
  {
    JoinOfSplit(path[1..]);
    var parts, segments := Split(path[1..]), Parse(path).value;
    EscapeAllOfDecode(parts);
    assert |segments| > 0;
    BuildIsJoin(segments);
    assert path == "/" + path[1..];
  }

  // ----- The two-pass substitution of section 4

  /** Replace every occurrence of "~x" by `ch`, from left to right. */
  function Substitute(s: string, x: char, ch: char): string {
    if |s| == 0 then ""
    else if |s| > 1 && s[0] == '~' && s[1] == x then [ch] + Substitute(s[2..], x, ch)
    else [s[0]] + Substitute(s[1..], x, ch)
  }

  /** On all it accepts, the single-pass decoder first turns ~1 into / and then ~0 into ~. */
  lemma {:induction false} DecodeIsTwoPass(s: string)
    requires Decode(s).Some?
    ensures Decode(s).value == Substitute(Substitute(s, '1', '/'), '0', '~')
  {
    if |s| > 0 {
      if s[0] != '~' {
        DecodeIsTwoPass(s[1..]);
        var once := Substitute(s[1..], '1', '/');
        assert ([s[0]] + once)[1..] == once;
      } else {
        DecodeIsTwoPass(s[2..]);
        var once := Substitute(s[2..], '1', '/');
        if s[1] == '1' {
          assert (['/'] + once)[1..] == once;
        } else {
          assert s[1..][1..] == s[2..];
          assert Substitute(s[1..], '1', '/') == ['0'] + once;
          assert Substitute(s, '1', '/') == ['~'] + (['0'] + once);
          assert (['~'] + (['0'] + once))[2..] == once;
        }
      }
    }
  }

  // ----- What the escape means

  /** A tilde becomes ~0, a slash ~1, and every other character stays. */
  lemma EscapeOfChar(ch: char)
    ensures Escape([ch]) == if ch == '~' then ['~', '0'] else if ch == '/' then ['~', '1'] else [ch]
  {
    assert [ch][1..] == "";
  }

  /** The escape works character by character, so the escapes of single characters determine it. */
  lemma {:induction false} EscapeOfBoth(a: string, b: string)
    ensures Escape(a + b) == Escape(a) + Escape(b)
  {
    if |a| == 0 {
      assert a + b == b;
    } else {
      EscapeOfBoth(a[1..], b);
      assert (a + b)[1..] == a[1..] + b && (a + b)[0] == a[0];
      var head := if a[0] == '~' then "~0" else if a[0] == '/' then "~1" else [a[0]];
      assert head + (Escape(a[1..]) + Escape(b)) == (head + Escape(a[1..])) + Escape(b);
    }
  }
}
