/** Substring facts about strings, as `grep` with a plain pattern and Python's `in` see them. */
module Text {

  /** `needle` occurs somewhere in `hay`. */
  predicate Contains(hay: string, needle: string) {
    exists i :: 0 <= i <= |hay| - |needle| && OccursAt(hay, needle, i)
  }

  predicate OccursAt(hay: string, needle: string, i: nat)
    requires i + |needle| <= |hay|
  {
    hay[i..i + |needle|] == needle
  }

  predicate Digit(c: char) { '0' <= c <= '9' }

  /** `r` is `s` with some entries left out. */
  predicate Subsequence<T(==)>(r: seq<T>, s: seq<T>)
    decreases |s|
  {
    r == [] || (s != [] && ((r[0] == s[0] && Subsequence(r[1..], s[1..])) || Subsequence(r, s[1..])))
  }

  /** In other words: the entries of `r` are those of `s` at some increasing places. */
  ghost predicate TakenAt<T>(r: seq<T>, s: seq<T>, places: seq<nat>) {
    && |places| == |r|
    && (forall i :: 0 <= i < |r| ==> places[i] < |s| && s[places[i]] == r[i])
    && (forall i, j :: 0 <= i < j < |r| ==> places[i] < places[j])
  }

  lemma TakenLater<T>(r: seq<T>, s: seq<T>, places: seq<nat>) returns (later: seq<nat>)
    requires s != [] && TakenAt(r, s[1..], places)
    ensures TakenAt(r, s, later) && forall i :: 0 <= i < |later| ==> later[i] > 0
  {
    later := seq(|places|, i requires 0 <= i < |places| => places[i] + 1);
  }

  lemma TakenFirst<T>(r: seq<T>, s: seq<T>, places: seq<nat>)
    requires r != [] && s != [] && r[0] == s[0]
    requires TakenAt(r[1..], s, places) && forall i :: 0 <= i < |places| ==> places[i] > 0
    ensures TakenAt(r, s, [0] + places)
  {
    assert forall i :: 0 < i < |r| ==> r[i] == r[1..][i - 1] && ([0] + places)[i] == places[i - 1];
  }

  lemma {:induction false} SubsequencePlaces<T>(r: seq<T>, s: seq<T>) returns (places: seq<nat>)
    requires Subsequence(r, s)
    ensures TakenAt(r, s, places)
    decreases |s|
  {
    hide TakenAt;
    if r == [] {
      places := [];
      NoneTaken(s);
    } else if r[0] == s[0] && Subsequence(r[1..], s[1..]) {
      places := SubsequencePlaces(r[1..], s[1..]);
      places := TakenLater(r[1..], s, places);
      TakenFirst(r, s, places);
      places := [0] + places;
    } else {
      places := SubsequencePlaces(r, s[1..]);
      places := TakenLater(r, s, places);
    }
  }

  lemma NoneTaken<T>(s: seq<T>)
    ensures TakenAt([], s, [])
  {
  }

  lemma DigitsAre(c: char)
    ensures Digit(c) <==> c in "0123456789"
  {
  }

  /** A text contains the texts it can be cut around. */
  lemma ContainsIff(hay: string, needle: string)
    ensures Contains(hay, needle) <==> exists before, after :: hay == before + needle + after
  {
    if Contains(hay, needle) {
      var i :| 0 <= i <= |hay| - |needle| && OccursAt(hay, needle, i);
      assert hay == hay[..i] + needle + hay[i + |needle|..];
    }
    forall before, after | hay == before + needle + after ensures Contains(hay, needle) {
      assert OccursAt(hay, needle, |before|);
    }
  }

  lemma ContainsItself(s: string)
    ensures Contains(s, s)
  {
    assert OccursAt(s, s, 0);
  }

  lemma ContainsSuffix(prefix: string, s: string)
    ensures Contains(prefix + s, s)
  {
    assert OccursAt(prefix + s, s, |prefix|);
  }

  /** A text is at least as long as a pattern it contains, and has all its characters. */
  lemma ContainsChars(hay: string, needle: string)
    requires Contains(hay, needle)
    ensures |needle| <= |hay|
    ensures forall c :: c in needle ==> c in hay
  {
    var i :| 0 <= i <= |hay| - |needle| && OccursAt(hay, needle, i);
    forall c | c in needle ensures c in hay {
      var k :| 0 <= k < |needle| && needle[k] == c;
      assert hay[i..i + |needle|][k] == hay[i + k];
    }
  }
}
