/**
  strip_html_tags: removal of every match of the regular expression <[^<]+?>, leftmost first, each
  as short as possible, none overlapping.
 */
module HtmlTags {
  import opened Text

  // ----- what the regular expression means -----

  /** `t` matches <[^<]+> from end to end. */
  predicate Tag(t: string) {
    |t| >= 3 && t[0] == '<' && t[|t| - 1] == '>' && '<' !in t[1..]
  }

  ghost predicate StartsWithTag(s: string) {
    exists n :: 0 <= n <= |s| && Tag(s[..n])
  }

  /** The lazy match at the start of `s` has length `n`. */
  ghost predicate LazyMatch(s: string, n: nat) {
    n <= |s| && Tag(s[..n]) && forall m :: 0 <= m < n ==> !Tag(s[..m])
  }

  datatype Piece = Kept(c: char) | Removed(tag: string)

  /** `pieces` is how re.sub goes through `s`: a match where there is one, one character where there is none. */
  ghost predicate Goes(s: string, pieces: seq<Piece>)
    decreases |pieces|
  {
    if pieces == [] then s == ""
    else
      match pieces[0]
      case Kept(c) => s != "" && s[0] == c && !StartsWithTag(s) && Goes(s[1..], pieces[1..])
      case Removed(t) => LazyMatch(s, |t|) && t == s[..|t|] && Goes(s[|t|..], pieces[1..])
  }

  function Output(pieces: seq<Piece>): string {
    if pieces == [] then ""
    else (if pieces[0].Kept? then [pieces[0].c] else "") + Output(pieces[1..])
  }

  lemma LazyMatchUnique(s: string, m: nat, n: nat)
    requires LazyMatch(s, m) && LazyMatch(s, n)
    ensures m == n
  {
  }

  lemma FirstPiece(s: string, pieces: seq<Piece>)
    requires Goes(s, pieces) && pieces != []
    ensures pieces[0].Removed? <==> StartsWithTag(s)
  {
  }

  /** There is only one way to go through a string. */
  lemma {:induction false} GoesUnique(s: string, p: seq<Piece>, q: seq<Piece>)
    requires Goes(s, p) && Goes(s, q)
    ensures p == q
    decreases |p|
  {
    if p != [] && q != [] {
      FirstPiece(s, p);
      FirstPiece(s, q);
      if p[0].Removed? {
        LazyMatchUnique(s, |p[0].tag|, |q[0].tag|);
        GoesUnique(s[|p[0].tag|..], p[1..], q[1..]);
      } else {
        GoesUnique(s[1..], p[1..], q[1..]);
      }
      assert p == [p[0]] + p[1..] && q == [q[0]] + q[1..];
    }
  }

  // ----- one pass, with what may yet turn out to be a tag held back -----

  function Scan(s: string, pending: string): string
    decreases |s|
  {
    if s == "" then pending
    else if pending == "" then
      if s[0] == '<' then Scan(s[1..], "<") else [s[0]] + Scan(s[1..], "")
    else if s[0] == '<' then pending + Scan(s[1..], "<")
    else if s[0] == '>' && |pending| >= 2 then Scan(s[1..], "")
    else Scan(s[1..], pending + [s[0]])
  }

  function StripHtmlTags(s: string): string {
    Scan(s, "")
  }

  function Chars(s: string): seq<Piece> {
    if s == "" then [] else [Kept(s[0])] + Chars(s[1..])
  }

  function Pieces(s: string, pending: string): seq<Piece>
    decreases |s|
  {
    if s == "" then Chars(pending)
    else if pending == "" then
      if s[0] == '<' then Pieces(s[1..], "<") else [Kept(s[0])] + Pieces(s[1..], "")
    else if s[0] == '<' then Chars(pending) + Pieces(s[1..], "<")
    else if s[0] == '>' && |pending| >= 2 then [Removed(pending + ">")] + Pieces(s[1..], "")
    else Pieces(s[1..], pending + [s[0]])
  }

  /** A tag that has begun and not ended. */
  predicate Unfinished(pending: string) {
    pending == ""
    || (pending[0] == '<' && '<' !in pending[1..] && forall i :: 2 <= i < |pending| ==> pending[i] != '>')
  }

  lemma {:induction false} CharsOutput(x: string, rest: seq<Piece>)
    ensures Output(Chars(x) + rest) == x + Output(rest)
  {
    if x == "" {
      assert Chars(x) + rest == rest;
    } else {
      CharsOutput(x[1..], rest);
      assert Chars(x) + rest == [Kept(x[0])] + (Chars(x[1..]) + rest);
      assert x + Output(rest) == [x[0]] + (x[1..] + Output(rest));
    }
  }

  lemma {:induction false} CharsGo(x: string, s: string, rest: seq<Piece>)
    requires Goes(s, rest) && forall i :: 0 <= i < |x| ==> !StartsWithTag(x[i..] + s)
    ensures Goes(x + s, Chars(x) + rest)
    decreases |x|
  {
    if x == "" {
      assert x + s == s && Chars(x) + rest == rest;
    } else {
      hide StartsWithTag, LazyMatch;
      forall i | 0 <= i < |x[1..]| ensures !StartsWithTag(x[1..][i..] + s) {
        assert x[1..][i..] == x[i + 1..];
      }
      CharsGo(x[1..], s, rest);
      assert (x + s)[1..] == x[1..] + s;
      assert Chars(x) + rest == [Kept(x[0])] + (Chars(x[1..]) + rest);
      assert x[0..] + s == x + s;
    }
  }

  /** Where a new '<' or the end cuts an unfinished tag, none of it is in a match. */
  lemma UnfinishedIsNoTag(pending: string, s: string, i: nat)
    requires Unfinished(pending) && (s == "" || s[0] == '<') && i < |pending|
    ensures !StartsWithTag(pending[i..] + s)
  {
    var w := pending[i..] + s;
    forall n | 0 <= n <= |w| ensures !Tag(w[..n]) {
      var t := w[..n];
      if n >= 3 && i == 0 {
        if n <= |pending| {
          assert t[n - 1] == pending[n - 1];
        } else {
          assert t[1..][|pending| - 1] == s[0];
        }
      } else if n >= 3 {
        assert t[0] == pending[i] == pending[1..][i - 1];
      }
    }
  }

  lemma NoTagAhead(s: string)
    requires s != "" && s[0] != '<'
    ensures !StartsWithTag(s)
  {
    forall n | 0 <= n <= |s| ensures !Tag(s[..n]) {
      if n > 0 {
        assert s[..n][0] == s[0];
      }
    }
  }

  lemma Finished(pending: string, s: string)
    requires Unfinished(pending) && |pending| >= 2
    ensures LazyMatch(pending + ">" + s, |pending| + 1)
  {
    var w := pending + ">" + s;
    assert w[..|pending| + 1] == pending + ">";
    assert (pending + ">")[1..] == pending[1..] + ">";
    forall m | 0 <= m < |pending| + 1 ensures !Tag(w[..m]) {
      if m >= 3 {
        assert w[..m][m - 1] == pending[m - 1];
      }
    }
  }

  lemma UnfinishedStays(pending: string, s: string, rest: seq<Piece>)
    requires Unfinished(pending) && (s == "" || s[0] == '<') && Goes(s, rest)
    ensures Goes(pending + s, Chars(pending) + rest)
    ensures Output(Chars(pending) + rest) == pending + Output(rest)
  {
    hide StartsWithTag, Goes, Unfinished;
    forall i | 0 <= i < |pending| ensures !StartsWithTag(pending[i..] + s) {
      UnfinishedIsNoTag(pending, s, i);
    }
    CharsGo(pending, s, rest);
    CharsOutput(pending, rest);
  }

  lemma FinishedGoes(pending: string, s: string, rest: seq<Piece>)
    requires Unfinished(pending) && |pending| >= 2 && Goes(s, rest)
    ensures Goes(pending + ">" + s, [Removed(pending + ">")] + rest)
    ensures Output([Removed(pending + ">")] + rest) == Output(rest)
  {
    Finished(pending, s);
    hide LazyMatch, Unfinished;
    var w := pending + ">" + s;
    assert w[..|pending| + 1] == pending + ">" && w[|pending| + 1..] == s;
    assert ([Removed(pending + ">")] + rest)[1..] == rest;
  }

  lemma PlainGoes(s: string, rest: seq<Piece>)
    requires s != "" && s[0] != '<' && Goes(s[1..], rest)
    ensures Goes(s, [Kept(s[0])] + rest) && Output([Kept(s[0])] + rest) == [s[0]] + Output(rest)
  {
    NoTagAhead(s);
    hide StartsWithTag;
    assert ([Kept(s[0])] + rest)[1..] == rest;
  }

  lemma UnfinishedMore(pending: string, c: char)
    requires Unfinished(pending) && pending != "" && c != '<' && (c == '>' ==> |pending| < 2)
    ensures Unfinished(pending + [c])
  {
    assert (pending + [c])[1..] == pending[1..] + [c];
  }

  lemma EmptyGoes()
    ensures Goes("", []) && Output([]) == ""
  {
  }

  /** The scanner with `pending` held back goes through the rest as the regular expression does. */
  ghost predicate Refines(s: string, pending: string) {
    Goes(pending + s, Pieces(s, pending)) && Output(Pieces(s, pending)) == Scan(s, pending)
  }

  lemma EndRefines(pending: string)
    requires Unfinished(pending)
    ensures Refines("", pending)
  {
    EmptyGoes();
    UnfinishedStays(pending, "", []);
    hide Goes, Output, Unfinished;
    assert Chars(pending) + [] == Chars(pending) && pending + "" == pending;
  }

  lemma PlainRefines(s: string)
    requires s != "" && s[0] != '<' && Refines(s[1..], "")
    ensures Refines(s, "")
  {
    assert "" + s[1..] == s[1..] && "" + s == s;
    PlainGoes(s, Pieces(s[1..], ""));
    hide Goes, Output;
  }

  lemma OpenRefines(s: string, pending: string)
    requires s != "" && s[0] == '<' && Unfinished(pending) && Refines(s[1..], "<")
    ensures Refines(s, pending)
  {
    assert "<" + s[1..] == s;
    UnfinishedStays(pending, s, Pieces(s[1..], "<"));
    hide Goes, Output, Unfinished;
    if pending == "" {
      assert pending + s == s;
    }
  }

  lemma CloseStep(s: string, pending: string)
    requires s != "" && s[0] == '>' && |pending| >= 2
    ensures Pieces(s, pending) == [Removed(pending + ">")] + Pieces(s[1..], "")
    ensures Scan(s, pending) == Scan(s[1..], "")
  {
  }

  lemma CloseRefines(s: string, pending: string)
    requires s != "" && s[0] == '>' && Unfinished(pending) && |pending| >= 2 && Refines(s[1..], "")
    ensures Refines(s, pending)
  {
    hide Goes, Output, Unfinished, Pieces, Scan;
    CloseStep(s, pending);
    assert "" + s[1..] == s[1..] && pending + s == pending + ">" + s[1..];
    FinishedGoes(pending, s[1..], Pieces(s[1..], ""));
  }

  lemma HoldRefines(s: string, pending: string)
    requires s != "" && s[0] != '<' && pending != "" && (s[0] == '>' ==> |pending| < 2)
    requires Refines(s[1..], pending + [s[0]])
    ensures Refines(s, pending)
  {
    hide Goes, Output;
    assert pending + s == (pending + [s[0]]) + s[1..];
  }

  /** The scanner goes through every string exactly as the regular expression does, in one pass. */
  lemma {:induction false} ScanGoes(s: string, pending: string)
    requires Unfinished(pending)
    ensures Refines(s, pending)
    decreases |s|
  {
    hide Refines;
    if s == "" {
      EndRefines(pending);
    } else if s[0] == '<' {
      ScanGoes(s[1..], "<");
      OpenRefines(s, pending);
    } else if pending == "" {
      ScanGoes(s[1..], "");
      PlainRefines(s);
    } else if s[0] == '>' && |pending| >= 2 {
      ScanGoes(s[1..], "");
      CloseRefines(s, pending);
    } else {
      UnfinishedMore(pending, s[0]);
      ScanGoes(s[1..], pending + [s[0]]);
      HoldRefines(s, pending);
    }
  }

  /** For every string: the scanner's result is that of re.sub, however one goes through the string. */
  lemma ScannerIsSub(s: string, pieces: seq<Piece>)
    ensures Goes(s, Pieces(s, ""))
    ensures Goes(s, pieces) ==> StripHtmlTags(s) == Output(pieces)
  {
    ScanGoes(s, "");
    assert "" + s == s;
    if Goes(s, pieces) {
      GoesUnique(s, pieces, Pieces(s, ""));
    }
  }

  // ----- what is lost -----

  function Count(s: string, c: char): nat {
    if s == "" then 0 else (if s[0] == c then 1 else 0) + Count(s[1..], c)
  }

  lemma {:induction false} CountAppend(s: string, t: string, c: char)
    ensures Count(s + t, c) == Count(s, c) + Count(t, c)
  {
    if s == "" {
      assert s + t == t;
    } else {
      CountAppend(s[1..], t, c);
      assert (s + t)[1..] == s[1..] + t;
    }
  }

  lemma {:induction false} CountNone(s: string, c: char)
    requires c !in s
    ensures Count(s, c) == 0
  {
    if s != "" {
      CountNone(s[1..], c);
    }
  }

  function Tags(pieces: seq<Piece>): seq<string> {
    if pieces == [] then []
    else (if pieces[0].Removed? then [pieces[0].tag] else []) + Tags(pieces[1..])
  }

  function Total(tags: seq<string>): nat {
    if tags == [] then 0 else |tags[0]| + Total(tags[1..])
  }

  lemma {:induction false} SkipPrefix(r: string, t: string, s: string)
    requires Subsequence(r, s)
    ensures Subsequence(r, t + s)
  {
    if t == "" {
      assert t + s == s;
    } else {
      SkipPrefix(r, t[1..], s);
      assert (t + s)[1..] == t[1..] + s;
    }
  }

  lemma {:induction false} KeepsOrder(s: string, pieces: seq<Piece>)
    requires Goes(s, pieces)
    ensures Subsequence(Output(pieces), s)
    decreases |pieces|
  {
    hide StartsWithTag;
    if pieces != [] {
      if pieces[0].Kept? {
        KeepsOrder(s[1..], pieces[1..]);
        assert Output(pieces)[1..] == Output(pieces[1..]);
      } else {
        var t := pieces[0].tag;
        KeepsOrder(s[|t|..], pieces[1..]);
        assert s == t + s[|t|..];
        SkipPrefix(Output(pieces[1..]), t, s[|t|..]);
        assert Output(pieces) == Output(pieces[1..]);
      }
    }
  }

  lemma {:induction false} Lengths(s: string, pieces: seq<Piece>)
    requires Goes(s, pieces)
    ensures |s| == |Output(pieces)| + Total(Tags(pieces))
    decreases |pieces|
  {
    if pieces != [] {
      if pieces[0].Kept? {
        Lengths(s[1..], pieces[1..]);
        assert Tags(pieces) == Tags(pieces[1..]);
      } else {
        var t := pieces[0].tag;
        Lengths(s[|t|..], pieces[1..]);
        assert Tags(pieces) == [t] + Tags(pieces[1..]);
        assert Output(pieces) == Output(pieces[1..]);
      }
    }
  }

  lemma TagCount(t: string, s: string)
    requires Tag(t)
    ensures Count(t + s, '<') == 1 + Count(s, '<')
  {
    CountAppend(t, s, '<');
    CountNone(t[1..], '<');
  }

  lemma {:induction false} Counts(s: string, pieces: seq<Piece>)
    requires Goes(s, pieces)
    ensures Count(s, '<') == Count(Output(pieces), '<') + |Tags(pieces)|
    ensures forall t :: t in Tags(pieces) ==> Tag(t)
    decreases |pieces|
  {
    if pieces != [] {
      if pieces[0].Kept? {
        Counts(s[1..], pieces[1..]);
        assert Tags(pieces) == Tags(pieces[1..]);
        assert Output(pieces) == [s[0]] + Output(pieces[1..]);
      } else {
        var t := pieces[0].tag;
        Counts(s[|t|..], pieces[1..]);
        assert s == t + s[|t|..];
        TagCount(t, s[|t|..]);
        assert Tags(pieces) == [t] + Tags(pieces[1..]);
        assert Output(pieces) == Output(pieces[1..]);
      }
    }
  }

  /** Nothing is reordered or made up; each removed match takes away exactly one '<'. */
  lemma StripAccounts(s: string)
    ensures Subsequence(StripHtmlTags(s), s)
    ensures |s| == |StripHtmlTags(s)| + Total(Tags(Pieces(s, "")))
    ensures Count(s, '<') == Count(StripHtmlTags(s), '<') + |Tags(Pieces(s, ""))|
    ensures forall t :: t in Tags(Pieces(s, "")) ==> Tag(t)
  {
    ScanGoes(s, "");
    assert "" + s == s;
    KeepsOrder(s, Pieces(s, ""));
    Lengths(s, Pieces(s, ""));
    Counts(s, Pieces(s, ""));
  }

  // ----- a string cut up at its '<'s -----

  predicate Plain(t: string) {
    '<' !in t
  }

  function CloseFrom(t: string, i: nat): (j: nat)
    requires i <= |t|
    ensures i <= j <= |t| && (j < |t| ==> t[j] == '>') && (forall k :: i <= k < j ==> t[k] != '>')
    decreases |t| - i
  {
    if i == |t| || t[i] == '>' then i else CloseFrom(t, i + 1)
  }

  /** A '<' followed by `t` begins a tag: there is a '>' in `t` after its first character. */
  predicate Closes(t: string) {
    t != "" && CloseFrom(t, 1) < |t|
  }

  function After(t: string): (r: string)
    requires Closes(t)
    ensures Plain(t) ==> Plain(r)
  {
    t[CloseFrom(t, 1) + 1..]
  }

  function Flat(ts: seq<string>): string {
    if ts == [] then "" else "<" + ts[0] + Flat(ts[1..])
  }

  function Remains(ts: seq<string>): string {
    if ts == [] then ""
    else (if Closes(ts[0]) then After(ts[0]) else "<" + ts[0]) + Remains(ts[1..])
  }

  predicate AllPlain(ts: seq<string>) {
    forall t :: t in ts ==> Plain(t)
  }

  lemma {:induction false} ScanText(t: string, s: string)
    requires Plain(t)
    ensures Scan(t + s, "") == t + Scan(s, "")
  {
    if t == "" {
      assert t + s == s;
    } else {
      ScanText(t[1..], s);
      assert (t + s)[1..] == t[1..] + s;
    }
  }

  /** The scanner part of the way through `t`, which came after a '<'. */
  lemma SegmentEnds(t: string, s: string)
    requires (forall i :: 1 <= i < |t| ==> t[i] != '>') && (s == "" || s[0] == '<')
    ensures !Closes(t) && Scan(t[|t|..] + s, "<" + t[..|t|]) == "<" + t + Scan(s, "")
  {
    assert t[|t|..] + s == s && t[..|t|] == t;
    hide CloseFrom;
  }

  lemma SegmentCloses(t: string, k: nat, s: string)
    requires 1 <= k < |t| && t[k] == '>' && forall i :: 1 <= i < k ==> t[i] != '>'
    ensures Closes(t) && Scan(t[k..] + s, "<" + t[..k]) == Scan(After(t) + s, "")
  {
    var rest := t[k..] + s;
    assert CloseFrom(t, 1) == k;
    assert rest[0] == t[k] && rest[1..] == t[k + 1..] + s;
    hide CloseFrom;
  }

  lemma SegmentGoesOn(t: string, k: nat, s: string)
    requires Plain(t) && k < |t| && (k == 0 || t[k] != '>')
    ensures Scan(t[k..] + s, "<" + t[..k]) == Scan(t[k + 1..] + s, "<" + t[..k + 1])
  {
    var rest := t[k..] + s;
    assert rest[0] == t[k] && t[k] in t && rest[1..] == t[k + 1..] + s;
    assert "<" + t[..k] + [t[k]] == "<" + t[..k + 1];
  }

  lemma {:induction false} ScanSegment(t: string, k: nat, s: string)
    requires Plain(t) && k <= |t| && (forall i :: 1 <= i < k ==> t[i] != '>') && (s == "" || s[0] == '<')
    ensures Scan(t[k..] + s, "<" + t[..k]) == if Closes(t) then Scan(After(t) + s, "") else "<" + t + Scan(s, "")
    decreases |t| - k
  {
    hide *;
    if k == |t| {
      SegmentEnds(t, s);
    } else if k >= 1 && t[k] == '>' {
      SegmentCloses(t, k, s);
    } else {
      ScanSegment(t, k + 1, s);
      SegmentGoesOn(t, k, s);
    }
  }

  lemma ScanBegins(s: string)
    requires s != "" && s[0] == '<'
    ensures Scan(s, "") == Scan(s[1..], "<")
  {
  }

  lemma ScanOpens(t: string, s: string)
    requires Plain(t) && (s == "" || s[0] == '<')
    ensures Scan("<" + t + s, "")
         == if Closes(t) then After(t) + Scan(s, "") else "<" + t + Scan(s, "")
  {
    hide *;
    var u := "<" + t + s;
    assert u[1..] == t[0..] + s && "<" + t[..0] == "<";
    ScanSegment(t, 0, s);
    ScanBegins(u);
    if Closes(t) {
      ScanText(After(t), s);
    }
  }

  lemma {:induction false} ScanFlat(ts: seq<string>)
    requires AllPlain(ts)
    ensures Scan(Flat(ts), "") == Remains(ts)
  {
    if ts != [] {
      ScanFlat(ts[1..]);
      ScanOpens(ts[0], Flat(ts[1..]));
      hide Closes, After, Scan;
    }
  }

  lemma StripSegments(t: string, ts: seq<string>)
    requires Plain(t) && AllPlain(ts)
    ensures StripHtmlTags(t + Flat(ts)) == t + Remains(ts)
  {
    ScanText(t, Flat(ts));
    ScanFlat(ts);
  }

  /** The text before the first '<' and the texts after each. */
  function Split(s: string): (r: (string, seq<string>))
    ensures s == r.0 + Flat(r.1) && Plain(r.0) && AllPlain(r.1)
  {
    if s == "" then ("", [])
    else
      var r := Split(s[1..]);
      if s[0] == '<' then ("", [r.0] + r.1) else ([s[0]] + r.0, r.1)
  }

  // ----- texts come back -----

  function Weave(texts: seq<string>, names: seq<string>): string
    requires |texts| == |names| + 1
    decreases |names|
  {
    if names == [] then texts[0] else texts[0] + "<" + names[0] + ">" + Weave(texts[1..], names[1..])
  }

  function Concat(texts: seq<string>): string {
    if texts == [] then "" else texts[0] + Concat(texts[1..])
  }

  predicate Name(name: string) {
    name != "" && '<' !in name && '>' !in name
  }

  function Segments(texts: seq<string>, names: seq<string>): seq<string>
    requires |texts| == |names| + 1
    decreases |names|
  {
    if names == [] then [] else [names[0] + ">" + texts[1]] + Segments(texts[1..], names[1..])
  }

  lemma TagSegment(name: string, text: string)
    requires Name(name)
    ensures Closes(name + ">" + text) && After(name + ">" + text) == text
    ensures Plain(text) ==> Plain(name + ">" + text)
  {
    var t := name + ">" + text;
    assert t[|name|] == '>';
    assert forall k :: 1 <= k < |name| ==> t[k] == name[k];
    assert CloseFrom(t, 1) == |name|;
  }

  lemma {:induction false} WeaveSegments(texts: seq<string>, names: seq<string>)
    requires |texts| == |names| + 1 && AllPlain(texts) && forall n :: n in names ==> Name(n)
    ensures Weave(texts, names) == texts[0] + Flat(Segments(texts, names))
    ensures AllPlain(Segments(texts, names))
    ensures Remains(Segments(texts, names)) == Concat(texts[1..])
    decreases |names|
  {
    if names != [] {
      WeaveSegments(texts[1..], names[1..]);
      TagSegment(names[0], texts[1]);
      hide Closes, After, Name, Plain;
      var first, others := names[0] + ">" + texts[1], Segments(texts[1..], names[1..]);
      assert Segments(texts, names)[1..] == others;
      Regroup(texts[0], names[0], texts[1], Flat(others));
    }
  }

  lemma Regroup(a: string, name: string, b: string, rest: string)
    ensures a + "<" + name + ">" + (b + rest) == a + ("<" + (name + ">" + b) + rest)
  {
  }

  /** Texts without '<', with tags between them, are what stripping the tags gives back. */
  lemma StripWeave(texts: seq<string>, names: seq<string>)
    requires |texts| == |names| + 1 && AllPlain(texts) && forall n :: n in names ==> Name(n)
    ensures StripHtmlTags(Weave(texts, names)) == Concat(texts)
  {
    WeaveSegments(texts, names);
    StripSegments(texts[0], Segments(texts, names));
  }

  // ----- stripping twice -----

  /** The texts after each '<' that stays, tags in between taken out, and the text before the first. */
  function Survivors(ts: seq<string>): (string, seq<string>) {
    if ts == [] then ("", [])
    else
      var r := Survivors(ts[1..]);
      if Closes(ts[0]) then (After(ts[0]) + r.0, r.1) else ("", [ts[0] + r.0] + r.1)
  }

  lemma {:induction false} SurvivorsArePlain(ts: seq<string>)
    requires AllPlain(ts)
    ensures Plain(Survivors(ts).0) && AllPlain(Survivors(ts).1)
  {
    hide After, Closes;
    if ts != [] {
      SurvivorsArePlain(ts[1..]);
      assert Plain(ts[0]);
    }
  }

  lemma {:induction false} SurvivorsRemain(ts: seq<string>)
    ensures Remains(ts) == Survivors(ts).0 + Flat(Survivors(ts).1)
  {
    hide After, Closes;
    if ts != [] {
      SurvivorsRemain(ts[1..]);
      var (h, us) := Survivors(ts[1..]);
      if Closes(ts[0]) {
        assert After(ts[0]) + (h + Flat(us)) == (After(ts[0]) + h) + Flat(us);
      } else {
        assert ([ts[0] + h] + us)[1..] == us;
        assert "<" + ts[0] + (h + Flat(us)) == "" + ("<" + (ts[0] + h) + Flat(us));
      }
    }
  }

  /**
    Behind a '<' that stays come texts whose '<' goes, and what is left of one of them has a '>' that is
    not directly behind the first '<': `apart` says whether anything has come in between so far.
   */
  predicate Reopens(ts: seq<string>, apart: bool)
    decreases |ts|
  {
    && ts != [] && Closes(ts[0])
    && var rest := After(ts[0]);
    (if apart then '>' in rest else rest != "" && '>' in rest[1..]) || Reopens(ts[1..], apart || rest != "")
  }

  predicate ReopensAt(ts: seq<string>, i: nat) {
    i < |ts| && !Closes(ts[i]) && Reopens(ts[i + 1..], ts[i] != "")
  }

  /** In a settled string no '<' that stays gets a '>' to close it once the tags are out. */
  predicate Settled(s: string) {
    var ts := Split(s).1;
    forall i :: 0 <= i < |ts| ==> !ReopensAt(ts, i)
  }

  lemma ClosesIff(t: string)
    ensures Closes(t) <==> t != "" && '>' in t[1..]
  {
    if t != "" {
      var j := CloseFrom(t, 1);
      if j < |t| {
        assert t[1..][j - 1] == '>';
      } else {
        assert forall k :: 0 <= k < |t[1..]| ==> t[1..][k] == t[k + 1];
      }
    }
  }

  /** More text behind an open '<': it closes if it did, or if there is a '>' apart from the '<'. */
  lemma ClosesAppend(t: string, a: string)
    ensures Closes(t + a) <==> Closes(t) || (if t != "" then '>' in a else a != "" && '>' in a[1..])
  {
    ClosesIff(t);
    ClosesIff(t + a);
    hide Closes;
    if t == "" {
      assert t + a == a;
    } else {
      assert (t + a)[1..] == t[1..] + a;
    }
  }

  /** An open '<' with text `t` closes through what the following texts leave exactly if it reopens. */
  lemma {:induction false} ClosesByLead(t: string, ts: seq<string>)
    requires !Closes(t)
    ensures Closes(t + Survivors(ts).0) <==> Reopens(ts, t != "")
    decreases |ts|
  {
    hide Closes, After;
    if ts == [] || !Closes(ts[0]) {
      assert t + "" == t;
    } else {
      var a, h := After(ts[0]), Survivors(ts[1..]).0;
      ClosesAppend(t, a);
      ClosesAppend(t + a, h);
      assert t + (a + h) == t + a + h;
      if !Closes(t + a) {
        ClosesByLead(t + a, ts[1..]);
      }
    }
  }

  lemma {:induction false} SurvivorsClose(ts: seq<string>)
    ensures (exists u :: u in Survivors(ts).1 && Closes(u))
       <==> (exists i :: ReopensAt(ts, i))
  {
    if ts != [] {
      var rest := ts[1..];
      SurvivorsClose(rest);
      ShiftReopens(ts);
      if !Closes(ts[0]) {
        ClosesByLead(ts[0], rest);
        FirstSurvivor(ts);
      }
      assert ts[0 + 1..] == rest;
      hide Closes, After, Reopens;
    }
  }

  lemma FirstSurvivor(ts: seq<string>)
    requires ts != [] && !Closes(ts[0])
    ensures (exists u :: u in Survivors(ts).1 && Closes(u))
       <==> Closes(ts[0] + Survivors(ts[1..]).0) || (exists u :: u in Survivors(ts[1..]).1 && Closes(u))
  {
    hide Closes, After;
  }

  lemma ShiftReopens(ts: seq<string>)
    requires ts != []
    ensures (exists i :: ReopensAt(ts, i)) <==> ReopensAt(ts, 0) || (exists i :: ReopensAt(ts[1..], i))
  {
    hide Closes, Reopens;
    forall i: nat | i > 0 ensures ReopensAt(ts, i) <==> ReopensAt(ts[1..], i - 1) {
      if i < |ts| {
        assert ts[i] == ts[1..][i - 1] && ts[i + 1..] == ts[1..][i..];
      }
    }
    if exists i: nat :: ReopensAt(ts[1..], i) {
      var i: nat :| ReopensAt(ts[1..], i);
      assert ReopensAt(ts, i + 1);
    }
  }

  lemma {:induction false} RemainsShrinks(ts: seq<string>)
    ensures |Remains(ts)| <= |Flat(ts)|
    ensures Remains(ts) == Flat(ts) <==> forall t :: t in ts ==> !Closes(t)
    ensures (exists t :: t in ts && Closes(t)) ==> |Remains(ts)| < |Flat(ts)|
  {
    if ts != [] {
      RemainsShrinks(ts[1..]);
      assert forall t :: t in ts <==> t == ts[0] || t in ts[1..];
    }
  }

  /** Stripping is not idempotent; it is on exactly the settled strings. */
  lemma StripTwice(s: string)
    ensures StripHtmlTags(StripHtmlTags(s)) == StripHtmlTags(s) <==> Settled(s)
  {
    var (t, ts) := Split(s);
    var (h, us) := Survivors(ts);
    SurvivorsArePlain(ts);
    SurvivorsRemain(ts);
    StripSegments(t, ts);
    assert t + (h + Flat(us)) == (t + h) + Flat(us);
    StripSegments(t + h, us);
    RemainsShrinks(us);
    SurvivorsClose(ts);
    hide Survivors, Split, Remains, Flat, ReopensAt, Closes;
  }

  lemma {:induction false} CountSome(s: string, c: char)
    requires Count(s, c) == 0
    ensures c !in s
  {
    if s != "" {
      CountSome(s[1..], c);
      assert s == [s[0]] + s[1..];
    }
  }

  /** If every '<' begins a removed match, stripping again changes nothing. */
  lemma StripStable(s: string)
    requires Count(s, '<') == |Tags(Pieces(s, ""))|
    ensures StripHtmlTags(StripHtmlTags(s)) == StripHtmlTags(s)
  {
    StripAccounts(s);
    var r := StripHtmlTags(s);
    CountSome(r, '<');
    ScanText(r, "");
    assert r + "" == r;
  }

  lemma StripIsNotIdempotent()
    ensures StripHtmlTags("<<a>b>") == "<b>" && StripHtmlTags("<b>") == ""
  {
    StripWeave(["", ""], ["b"]);
    assert Weave(["", ""], ["b"]) == "<b>";
    var ts := ["", "a>b>"];
    StripSegments("", ts);
    TagSegment("a", "b>");
    assert "a" + ">" + "b>" == ts[1];
    assert "" + Flat(ts) == "<<a>b>";
  }
}
