/** The query string `jawn` appends to an action's path: each key/value pair
    of the `query` object, in key order, written `?k=v` for the first pair that
    contributes and `&k=v` for every later one, with no URL-encoding. */
module QueryString {
  import opened Values

  /** The `query` object as its entries in `Object.keys` order. */
  type Query = seq<(string, JsVal)>

  /** A value the builder drops: `null` or the string `'undefined'`. An actual
      `undefined` value is not dropped; it is written as the text `undefined`. */
  predicate Skipped(v: JsVal)
  {
    StrictEquals(v, Null) || StrictEquals(v, Str("undefined"))
  }

  /** `k=v`, with `v` rendered the way a template literal renders it. */
  function Pair(k: string, v: JsVal): string
  {
    k + "=" + ToText(v)
  }

  /** One iteration of the `forEach`: skip, or append with `?` while the
      string built so far does not start with `?`, else with `&`. */
  function Step(qs: string, k: string, v: JsVal): (r: string)
    ensures Skipped(v) ==> r == qs
    ensures !Skipped(v) ==> |r| > |qs| + 1 && r[..|qs|] == qs && r[|qs|] in "?&"
    ensures r != "" && (qs == "" || qs[0] == '?') ==> r[0] == '?'
  {
    if Skipped(v) then qs
    else if |qs| == 0 || qs[0] != '?' then qs + "?" + Pair(k, v)
    else qs + "&" + Pair(k, v)
  }

  /** The string the `forEach` accumulates, starting from `''`. */
  function Build(q: Query): (r: string)
    ensures r == "" || r[0] == '?'
  {
    if |q| == 0 then "" else Step(Build(q[..|q| - 1]), q[|q| - 1].0, q[|q| - 1].1)
  }

  // ---------------------------------------------------------------------------
  // Reference definition: the contributing entries, joined.

  /** The entries that contribute, in their original order. */
  function Contributing(q: Query): Query
  {
    if |q| == 0 then []
    else
      var last := q[|q| - 1];
      Contributing(q[..|q| - 1]) + (if Skipped(last.1) then [] else [last])
  }

  /** `&k=v` for every entry, in order. */
  function Ampersands(c: Query): string
  {
    if |c| == 0 then "" else Ampersands(c[..|c| - 1]) + "&" + Pair(c[|c| - 1].0, c[|c| - 1].1)
  }

  /** The query string as described: empty when nothing contributes,
      otherwise `?` before the first contributing pair and `&` before the rest. */
  function Expected(q: Query): string
  {
    Joined(Contributing(q))
  }

  /** `?` before the first pair, `&` before each later one. */
  function Joined(c: Query): string
  {
    if |c| == 0 then "" else "?" + Pair(c[0].0, c[0].1) + Ampersands(c[1..])
  }

  /** The `forEach` accumulation builds exactly the described string. */
  lemma {:induction false} BuildIsExpected(q: Query)
    ensures Build(q) == Expected(q)
  {
    if |q| == 0 {
      return;
    }
    var p := q[..|q| - 1];
    var (k, v) := q[|q| - 1];
    BuildIsExpected(p);
    var cp := Contributing(p);
    if Skipped(v) {
      assert Contributing(q) == cp + [];
      assert cp + [] == cp;
    } else {
      var c := Contributing(q);
      assert c == cp + [(k, v)];
      if |cp| == 0 {
        assert Build(p) == "";
        assert c[1..] == [];
      } else {
        assert q == p + [(k, v)];
        assert Build(p)[0] == '?';
        BuildAppendsAmpersand(p, k, v);
        ContributingSnoc(p, k, v);
        JoinedSnoc(cp, k, v);
      }
    }
  }

  /** Once the string starts with `?`, a contributing entry is appended with `&`. */
  lemma BuildAppendsAmpersand(p: Query, k: string, v: JsVal)
    requires !Skipped(v) && |Build(p)| > 0 && Build(p)[0] == '?'
    ensures Build(p + [(k, v)]) == Build(p) + ("&" + Pair(k, v))
  {
  }

  /** Appending a contributing entry extends the filtered sequence by it. */
  lemma ContributingSnoc(p: Query, k: string, v: JsVal)
    requires !Skipped(v)
    ensures Contributing(p + [(k, v)]) == Contributing(p) + [(k, v)]
  {
  }

  lemma AmpersandsSnoc(c: Query, k: string, v: JsVal)
    ensures Ampersands(c + [(k, v)]) == Ampersands(c) + ("&" + Pair(k, v))
  {
  }

  /** Joining a non-empty sequence of contributing entries grows by `&k=v`. */
  lemma JoinedSnoc(c: Query, k: string, v: JsVal)
    requires |c| > 0
    ensures Joined(c + [(k, v)]) == Joined(c) + ("&" + Pair(k, v))
  {
    var d := c + [(k, v)];
    assert d[0] == c[0];
    assert d[1..] == c[1..] + [(k, v)];
    AmpersandsSnoc(c[1..], k, v);
    var head := "?" + Pair(c[0].0, c[0].1);
    var amps := Ampersands(c[1..]);
    var tail := "&" + Pair(k, v);
    assert head + (amps + tail) == head + amps + tail;
  }

  /** Filtering distributes over concatenation. */
  lemma {:induction false} ContributingAppend(a: Query, b: Query)
    ensures Contributing(a + b) == Contributing(a) + Contributing(b)
    decreases |b|
  {
    if |b| == 0 {
      assert a + b == a;
    } else {
      var b' := b[..|b| - 1];
      assert (a + b)[..|a + b| - 1] == a + b';
      ContributingAppend(a, b');
    }
  }

  /** A `null` or `'undefined'` entry contributes nothing wherever it stands:
      dropping it leaves the built string unchanged. */
  lemma SkippedEntryIsInvisible(a: Query, k: string, v: JsVal, b: Query)
    requires Skipped(v)
    ensures Build(a + [(k, v)] + b) == Build(a + b)
  {
    ContributingAppend(a, [(k, v)]);
    ContributingAppend(a + [(k, v)], b);
    ContributingAppend(a, b);
    assert Contributing([(k, v)]) == [] by {
      assert [(k, v)][..0] == [];
    }
    assert Contributing(a + [(k, v)]) == Contributing(a);
    assert Contributing(a + [(k, v)] + b) == Contributing(a + b);
    BuildIsExpected(a + [(k, v)] + b);
    BuildIsExpected(a + b);
  }

  /** The builder yields the empty string exactly when every entry is
      skipped; otherwise the string starts with `?`. */
  lemma {:induction false} EmptyExactlyWhenAllSkipped(q: Query)
    ensures Build(q) == "" <==> forall i :: 0 <= i < |q| ==> Skipped(q[i].1)
    ensures Build(q) != "" ==> Build(q)[0] == '?'
  {
    BuildIsExpected(q);
    AllSkippedIffNoneContribute(q);
  }

  /** Nothing contributes exactly when every entry is skipped. */
  lemma {:induction false} AllSkippedIffNoneContribute(q: Query)
    ensures Contributing(q) == [] <==> forall i :: 0 <= i < |q| ==> Skipped(q[i].1)
  {
    if |q| > 0 {
      var p := q[..|q| - 1];
      AllSkippedIffNoneContribute(p);
      assert forall i :: 0 <= i < |p| ==> p[i] == q[i];
    }
  }

  /** A worked example: skipped entries vanish, the first survivor gets `?`,
      later ones `&`, and values are written verbatim (no URL-encoding). */
  lemma ExampleQuery()
    ensures Build([("a", Num("1")), ("b", Null), ("c", Str("undefined")), ("d", Str("x y")), ("e", Undefined)])
         == "?a=1&d=x y&e=undefined"
  {
    var q := [("a", Num("1")), ("b", Null), ("c", Str("undefined")), ("d", Str("x y")), ("e", Undefined)];
    assert q[..1] == [("a", Num("1"))];
    assert q[..2] == [("a", Num("1")), ("b", Null)];
    assert q[..3] == [("a", Num("1")), ("b", Null), ("c", Str("undefined"))];
    assert q[..4] == [("a", Num("1")), ("b", Null), ("c", Str("undefined")), ("d", Str("x y"))];
    assert Build(q[..1]) == "?a=1" by {
      assert q[..1][..0] == [];
    }
    assert Build(q[..2]) == "?a=1" by {
      assert q[..2][..1] == q[..1];
    }
    assert Build(q[..3]) == "?a=1" by {
      assert q[..3][..2] == q[..2];
    }
    assert Build(q[..4]) == "?a=1&d=x y" by {
      assert q[..4][..3] == q[..3];
    }
    assert q[..|q| - 1] == q[..4];
  }
}
