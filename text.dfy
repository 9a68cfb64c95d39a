module Text {

  /** `w` occurs in `s` starting at index `i`. */
  predicate MatchAt(s: string, w: string, i: int) {
    0 <= i && i + |w| <= |s| && s[i..i + |w|] == w
  }

  /** `w` matches `s` at index `i` from character `j` of `w` on, compared one character at a time. */
  predicate MatchFrom(s: string, w: string, i: nat, j: nat)
    requires i + |w| <= |s| && j <= |w|
    decreases |w| - j
  {
    j == |w| || (s[i + j] == w[j] && MatchFrom(s, w, i, j + 1))
  }

  /** `w` occurs in `s` at index `i` or later. */
  predicate ContainsFrom(s: string, w: string, i: nat)
    decreases |s| - i
  {
    i + |w| <= |s| && (MatchFrom(s, w, i, 0) || (i < |s| && ContainsFrom(s, w, i + 1)))
  }

  /** `w in s`: scanning `s` from the front for a position where `w` matches. */
  predicate Contains(s: string, w: string) {
    ContainsFrom(s, w, 0)
  }

  /** No character of `s` is one of `cs`. */
  predicate Avoids(s: string, cs: string) {
    forall i :: 0 <= i < |s| ==> s[i] !in cs
  }

  /** The character-by-character match is agreement at every remaining index. */
  lemma {:induction false} MatchFromIff(s: string, w: string, i: nat, j: nat)
    requires i + |w| <= |s| && j <= |w|
    ensures MatchFrom(s, w, i, j) <==> forall k :: j <= k < |w| ==> s[i + k] == w[k]
    decreases |w| - j
  {
    if j < |w| {
      MatchFromIff(s, w, i, j + 1);
    }
  }

  /** Matching at `i` one character at a time is matching as a slice. */
  lemma MatchAtIff(s: string, w: string, i: nat)
    ensures MatchAt(s, w, i) <==> i + |w| <= |s| && MatchFrom(s, w, i, 0)
  {
    if i + |w| <= |s| {
      MatchFromIff(s, w, i, 0);
      if MatchAt(s, w, i) {
        forall k | 0 <= k < |w| ensures s[i + k] == w[k] {
          assert s[i..i + |w|][k] == s[i + k];
        }
      }
      if MatchFrom(s, w, i, 0) {
        assert forall k :: 0 <= k < |w| ==> s[i..i + |w|][k] == w[k];
      }
    }
  }

  /** Scanning from `i` finds `w` exactly when it matches at some position from `i` on. */
  lemma {:induction false} ContainsFromIff(s: string, w: string, i: nat)
    ensures ContainsFrom(s, w, i) <==> exists k :: i <= k <= |s| && MatchAt(s, w, k)
    decreases |s| - i
  {
    MatchAtIff(s, w, i);
    if i + |w| > |s| {
      forall k | i <= k <= |s| ensures !MatchAt(s, w, k) {
      }
    } else if i < |s| {
      ContainsFromIff(s, w, i + 1);
      if exists k :: i <= k <= |s| && MatchAt(s, w, k) {
        var k :| i <= k <= |s| && MatchAt(s, w, k);
        if k != i {
          assert i + 1 <= k <= |s| && MatchAt(s, w, k);
        }
      }
    }
  }

  /** `w in s` holds exactly when `w` matches at some position of `s`. */
  lemma ContainsIff(s: string, w: string)
    ensures Contains(s, w) <==> exists i :: 0 <= i <= |s| && MatchAt(s, w, i)
  {
    ContainsFromIff(s, w, 0);
  }

  /** A witness position proves containment. */
  lemma Found(s: string, w: string, i: nat)
    requires MatchAt(s, w, i)
    ensures Contains(s, w)
  {
    ContainsIff(s, w);
  }

  /** A word with a character that `s` lacks does not occur in `s`. */
  lemma AbsentChar(s: string, w: string, c: char)
    requires c in w && c !in s
    ensures !Contains(s, w)
  {
    ContainsIff(s, w);
  }

  /**
   * A word whose `j`-th character occurs in `s` at position `p` and nowhere
   * else can only match at `p - j`; when it does not match there it does
   * not occur.
   */
  lemma OnlyAt(s: string, w: string, j: nat, p: nat)
    requires j < |w| && p < |s|
    requires w[j] !in s[..p] && w[j] !in s[p + 1..]
    requires !MatchAt(s, w, p - j)
    ensures !Contains(s, w)
  {
    ContainsIff(s, w);
    forall i | 0 <= i && i + |w| <= |s| && i != p - j ensures !MatchAt(s, w, i) {
      if i + j < p {
        assert s[..p][i + j] == s[i + j];
      } else {
        assert s[p + 1..][i + j - p - 1] == s[i + j];
      }
      assert s[i..i + |w|][j] == s[i + j];
    }
  }

  /** Every word occurs in itself followed by anything. */
  lemma AtFront(w: string, rest: string)
    ensures Contains(w + rest, w)
  {
    assert (w + rest)[0..|w|] == w;
    Found(w + rest, w, 0);
  }

  /**
   * A word without '/' that has a character absent from `rest` occurs in
   * `stem + "/" + rest` exactly when it occurs in `stem`.
   */
  lemma BeforeSlash(stem: string, rest: string, w: string, c: char)
    requires '/' !in w && c in w && c !in rest
    ensures Contains(stem + "/" + rest, w) <==> Contains(stem, w)
  {
    var s := stem + "/" + rest;
    ContainsIff(stem, w);
    ContainsIff(s, w);
    if Contains(stem, w) {
      var i :| 0 <= i <= |stem| && MatchAt(stem, w, i);
      assert s[i..i + |w|] == stem[i..i + |w|];
      Found(s, w, i);
    }
    var j :| 0 <= j < |w| && w[j] == c;
    forall i | 0 <= i <= |stem| < i + |w| <= |s| ensures !MatchAt(s, w, i) {
      assert s[i..i + |w|][|stem| - i] == '/';
    }
    forall i | |stem| < i && i + |w| <= |s| ensures !MatchAt(s, w, i) {
      assert s[i..i + |w|][j] == rest[i + j - |stem| - 1];
    }
    if Contains(s, w) {
      var i :| 0 <= i <= |s| && MatchAt(s, w, i);
      assert stem[i..i + |w|] == s[i..i + |w|];
      Found(stem, w, i);
    }
  }
}
