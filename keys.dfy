/**
 * The composite-key codec of the metrics store: a key is the four strings
 * category, subcategory, owner UID and metric name joined by '-'.  `Join` and
 * `Split` are Go's `strings.Join` and (unbounded) `strings.Split` for a
 * one-character separator.
 */
module Keys {

  /** The key delimiter (`keyDelimeter` in the store). */
  const Delimiter: char := '-'

  /** Number of occurrences of `c` in `s`. */
  function Count(s: string, c: char): (n: nat)
    ensures n == 0 <==> c !in s
    ensures n <= |s|
  {
    if |s| == 0 then 0
    else (if s[0] == c then 1 else 0) + Count(s[1..], c)
  }

  /**
   * Go's `strings.Join(parts, string(sep))`: no parts give the empty string,
   * one part is itself, and otherwise the first part and a separator open the
   * result.
   */
  function Join(parts: seq<string>, sep: char): (r: string)
    ensures |parts| == 0 ==> r == ""
    ensures |parts| == 1 ==> r == parts[0]
    ensures |parts| > 1 ==> |r| > |parts[0]| && r[..|parts[0]|] == parts[0] && r[|parts[0]|] == sep
  {
    if |parts| == 0 then ""
    else if |parts| == 1 then parts[0]
    else parts[0] + [sep] + Join(parts[1..], sep)
  }

  /**
   * Go's `strings.Split(s, string(sep))`: every maximal run of the string
   * between separators, empty runs included, so there is always one segment
   * more than there are separators.
   */
  function Split(s: string, sep: char): (parts: seq<string>)
    ensures |parts| >= 1
  {
    if |s| == 0 then [""]
    else
      var rest := Split(s[1..], sep);
      if s[0] == sep then [""] + rest
      else [[s[0]] + rest[0]] + rest[1..]
  }

  /** One step of `Split`: the first character either opens a new segment or joins the first. */
  lemma SplitCons(c: char, s: string, sep: char)
    ensures Split([c] + s, sep) ==
      if c == sep then [""] + Split(s, sep)
      else [[c] + Split(s, sep)[0]] + Split(s, sep)[1..]
  {
    assert ([c] + s)[1..] == s;
  }

  /** There is one more segment than there are separators. */
  lemma {:induction false} SplitCount(s: string, sep: char)
    ensures |Split(s, sep)| == Count(s, sep) + 1
  {
    if |s| > 0 {
      assert s == [s[0]] + s[1..];
      SplitCons(s[0], s[1..], sep);
      SplitCount(s[1..], sep);
    }
  }

  /** No segment contains the separator. */
  lemma {:induction false} SplitSegmentsFree(s: string, sep: char)
    ensures forall i :: 0 <= i < |Split(s, sep)| ==> sep !in Split(s, sep)[i]
  {
    if |s| > 0 {
      assert s == [s[0]] + s[1..];
      SplitCons(s[0], s[1..], sep);
      SplitSegmentsFree(s[1..], sep);
      var rest := Split(s[1..], sep);
      var parts := Split(s, sep);
      if s[0] != sep {
        assert forall i :: 1 <= i < |parts| ==> parts[i] == rest[i];
      } else {
        assert forall i :: 1 <= i < |parts| ==> parts[i] == rest[i - 1];
      }
    }
  }

  /** Joining the segments of a string restores it. */
  lemma {:induction false} JoinSplit(s: string, sep: char)
    ensures Join(Split(s, sep), sep) == s
  {
    if |s| > 0 {
      var c, tail := s[0], s[1..];
      assert s == [c] + tail;
      SplitCons(c, tail, sep);
      JoinSplit(tail, sep);
      var rest := Split(tail, sep);
      var parts := Split(s, sep);
      if c == sep {
        assert parts[1..] == rest;
        assert Join(parts, sep) == "" + [sep] + Join(rest, sep);
      } else {
        assert parts[0] == [c] + rest[0];
        assert parts[1..] == rest[1..];
        if |rest| > 1 {
          assert Join(rest, sep) == rest[0] + [sep] + Join(rest[1..], sep);
          assert Join(parts, sep) == parts[0] + [sep] + Join(rest[1..], sep);
        }
      }
    }
  }

  /** The composite key `<category>-<subcategory>-<ownerUID>-<metricName>`. */
  function CompositeKey(category: string, subcategory: string, uid: string, metric: string): (key: string)
    ensures key == category + [Delimiter] + (subcategory + [Delimiter] + (uid + [Delimiter] + metric))
  {
    assert [category, subcategory, uid, metric][1..] == [subcategory, uid, metric];
    assert [subcategory, uid, metric][1..] == [uid, metric];
    assert [uid, metric][1..] == [metric];
    var owned := uid + [Delimiter] + metric;
    assert Join([uid, metric], Delimiter) == owned;
    assert Join([subcategory, uid, metric], Delimiter) == subcategory + [Delimiter] + owned;
    Join([category, subcategory, uid, metric], Delimiter)
  }

  /** A string free of the separator splits into itself alone. */
  lemma {:induction false} SplitWord(w: string, sep: char)
    requires sep !in w
    ensures Split(w, sep) == [w]
  {
    if |w| > 0 {
      SplitWord(w[1..], sep);
      assert [w[0]] + w[1..] == w;
    }
  }

  /** A separator-free first segment splits off on its own. */
  lemma {:induction false} SplitWordThen(w: string, b: string, sep: char)
    requires sep !in w
    ensures Split(w + [sep] + b, sep) == [w] + Split(b, sep)
  {
    if |w| == 0 {
      assert w + [sep] + b == [sep] + b;
      SplitCons(sep, b, sep);
    } else {
      var c, tail := w[0], w[1..];
      assert w == [c] + tail;
      assert w + [sep] + b == [c] + (tail + [sep] + b);
      SplitWordThen(tail, b, sep);
      SplitCons(c, tail + [sep] + b, sep);
    }
  }

  /** Occurrences add up over a concatenation. */
  lemma {:induction false} CountConcat(a: string, b: string, c: char)
    ensures Count(a + b, c) == Count(a, c) + Count(b, c)
  {
    if |a| > 0 {
      assert (a + b)[1..] == a[1..] + b;
      CountConcat(a[1..], b, c);
    } else {
      assert a + b == b;
    }
  }

  /** Splitting a join of separator-free segments gives the segments back. */
  lemma {:induction false} SplitJoin(parts: seq<string>, sep: char)
    requires |parts| >= 1
    requires forall i :: 0 <= i < |parts| ==> sep !in parts[i]
    ensures Split(Join(parts, sep), sep) == parts
  {
    SplitWord(parts[0], sep);
    if |parts| > 1 {
      SplitJoin(parts[1..], sep);
      SplitWordThen(parts[0], Join(parts[1..], sep), sep);
      assert parts == [parts[0]] + parts[1..];
    }
  }

  /** A composite key splits into its category, its subcategory and the segments of `<uid>-<metric>`. */
  lemma CompositeKeySplit(category: string, subcategory: string, uid: string, metric: string)
    requires Delimiter !in category && Delimiter !in subcategory
    ensures Split(CompositeKey(category, subcategory, uid, metric), Delimiter) ==
      [category, subcategory] + Split(uid + [Delimiter] + metric, Delimiter)
  {
    var owned := uid + [Delimiter] + metric;
    SplitWordThen(category, subcategory + [Delimiter] + owned, Delimiter);
    SplitWordThen(subcategory, owned, Delimiter);
  }

  /** The segments of `<uid>-<metric>`: at least two, the first free of '-'. */
  lemma OwnedSegments(uid: string, metric: string)
    ensures var rest := Split(uid + [Delimiter] + metric, Delimiter);
      && |rest| >= 2
      && Delimiter !in rest[0]
      && (rest[0] == uid <==> Delimiter !in uid)
      && (|rest| == 2 <==> Delimiter !in uid && Delimiter !in metric)
      && (Delimiter !in uid && Delimiter !in metric ==> rest == [uid, metric])
  {
    var owned := uid + [Delimiter] + metric;
    SplitCount(owned, Delimiter);
    CountConcat(uid, [Delimiter] + metric, Delimiter);
    CountConcat([Delimiter], metric, Delimiter);
    assert uid + ([Delimiter] + metric) == owned;
    SplitSegmentsFree(owned, Delimiter);
    if Delimiter !in uid {
      SplitWordThen(uid, metric, Delimiter);
      if Delimiter !in metric {
        SplitWord(metric, Delimiter);
      }
    }
  }

  /**
   * The segments of a composite key: the first two are the category and
   * subcategory; the third, the owner segment, contains no '-' and so equals
   * the owner UID iff the UID contains no '-'; and there are exactly four
   * segments iff neither the UID nor the metric name contains '-'.
   */
  lemma CompositeKeySegments(category: string, subcategory: string, uid: string, metric: string)
    requires Delimiter !in category && Delimiter !in subcategory
    ensures var parts := Split(CompositeKey(category, subcategory, uid, metric), Delimiter);
      && |parts| >= 4
      && parts[0] == category
      && parts[1] == subcategory
      && Delimiter !in parts[2]
      && (parts[2] == uid <==> Delimiter !in uid)
      && (|parts| == 4 <==> Delimiter !in uid && Delimiter !in metric)
      && (Delimiter !in uid && Delimiter !in metric ==> parts == [category, subcategory, uid, metric])
  {
    CompositeKeySplit(category, subcategory, uid, metric);
    OwnedSegments(uid, metric);
    var rest := Split(uid + [Delimiter] + metric, Delimiter);
    assert ([category, subcategory] + rest)[2] == rest[0];
  }
}
