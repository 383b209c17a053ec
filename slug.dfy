/**
 * The URL slug both admin write paths derive from a title or product name:
 * `title.toLowerCase().replace(/\s+/g, '-')`.
 */
module Slug {
  import opened Text
  import Seqs

  /** Strips the run of whitespace at the front of `s`. */
  function DropSpaces(s: string): (r: string)
    ensures |r| <= |s|
    ensures s != [] && IsSpace(s[0]) ==> |r| < |s|
    ensures r == [] || !IsSpace(r[0])
    decreases |s|
  {
    if s != [] && IsSpace(s[0]) then DropSpaces(s[1..]) else s
  }

  /** `s.replace(/\s+/g, '-')`: every maximal run of whitespace becomes one `-`. */
  function CollapseSpaces(s: string): (r: string)
    ensures |r| <= |s|
    ensures forall c :: c in r ==> !IsSpace(c)
    ensures forall c :: c in r ==> c == '-' || c in s
    decreases |s|
  {
    if s == [] then []
    else if IsSpace(s[0]) then
      var rest := DropSpaces(s);
      DropSpacesSuffix(s);
      "-" + CollapseSpaces(rest)
    else [s[0]] + CollapseSpaces(s[1..])
  }

  /** What `DropSpaces` keeps is a suffix of its input. */
  lemma {:induction false} DropSpacesSuffix(s: string)
    ensures |DropSpaces(s)| <= |s| && DropSpaces(s) == s[|s| - |DropSpaces(s)|..]
    decreases |s|
  {
    if s != [] && IsSpace(s[0]) {
      DropSpacesSuffix(s[1..]);
    }
  }

  /** The slug of a blog-post title or a product name. */
  function Slugify(title: string): (r: string)
    ensures |r| <= |title|
    ensures r == [] <==> title == []
    ensures forall c :: c in r ==> !IsSpace(c)
  {
    CollapseNonEmpty(Lower(title));
    CollapseSpaces(Lower(title))
  }

  /** Replacing runs never empties a non-empty string: each run leaves a `-`. */
  lemma CollapseNonEmpty(s: string)
    ensures CollapseSpaces(s) == [] <==> s == []
  {
    if s != [] {
      CollapseStep(s);
    }
  }

  /** No whitespace survives, and every character of the slug is `-` or a lowered character of the title. */
  lemma SlugCharacters(title: string)
    ensures forall c :: c in Slugify(title) ==> !IsSpace(c)
    ensures forall c :: c in Slugify(title) ==> c == '-' || c in Lower(title)
    ensures |Slugify(title)| <= |title|
  {
  }

  /** A string without whitespace passes through the run replacement unchanged. */
  lemma {:induction false} CollapseWithoutSpaces(s: string)
    requires forall i :: 0 <= i < |s| ==> !IsSpace(s[i])
    ensures CollapseSpaces(s) == s
    decreases |s|
  {
    if s != [] {
      CollapseWithoutSpaces(s[1..]);
    }
  }

  /** Dropping leading whitespace from a string that ends in a non-space stops inside it. */
  lemma {:induction false} DropSpacesAppend(a: string, t: string)
    requires a != [] && !IsSpace(a[|a| - 1])
    ensures DropSpaces(a + t) == DropSpaces(a) + t
    decreases |a|
  {
    if IsSpace(a[0]) {
      assert (a + t)[1..] == a[1..] + t;
      DropSpacesAppend(a[1..], t);
    }
  }

  /** Dropping leading whitespace never removes a final non-space character. */
  lemma {:induction false} DropSpacesKeepsLast(a: string)
    requires a != [] && !IsSpace(a[|a| - 1])
    ensures DropSpaces(a) != [] && DropSpaces(a)[|DropSpaces(a)| - 1] == a[|a| - 1]
    decreases |a|
  {
    if IsSpace(a[0]) {
      DropSpacesKeepsLast(a[1..]);
    }
  }

  /** A run of whitespace followed by a string that starts with a non-space is dropped whole. */
  lemma {:induction false} DropSpacesRun(w: string, b: string)
    requires forall i :: 0 <= i < |w| ==> IsSpace(w[i])
    requires b == [] || !IsSpace(b[0])
    ensures DropSpaces(w + b) == b
    decreases |w|
  {
    if w != [] {
      assert (w + b)[1..] == w[1..] + b;
      DropSpacesRun(w[1..], b);
    }
  }

  /** One step of the run replacement, read off its definition. */
  lemma CollapseStep(s: string)
    requires s != []
    ensures IsSpace(s[0]) ==> CollapseSpaces(s) == "-" + CollapseSpaces(DropSpaces(s))
    ensures !IsSpace(s[0]) ==> CollapseSpaces(s) == [s[0]] + CollapseSpaces(s[1..])
  {
  }

  /**
   * The defining property of the replacement: a maximal whitespace run `w` between
   * `a` and `b` becomes exactly one `-`, and the two sides are replaced independently.
   * With `CollapseWithoutSpaces` this determines `CollapseSpaces` on every input.
   */
  lemma {:induction false} CollapseJoin(a: string, w: string, b: string)
    requires a == [] || !IsSpace(a[|a| - 1])
    requires |w| > 0 && forall i :: 0 <= i < |w| ==> IsSpace(w[i])
    requires b == [] || !IsSpace(b[0])
    ensures CollapseSpaces(a + w + b) == CollapseSpaces(a) + "-" + CollapseSpaces(b)
    decreases |a|
  {
    if a == [] {
      assert a + w + b == w + b;
      CollapseRunFirst(w, b);
    } else if IsSpace(a[0]) {
      var a' := DropSpaces(a);
      DropSpacesKeepsLast(a);
      CollapseJoin(a', w, b);
      CollapseJoinSpace(a, w, b);
    } else {
      var t := a[1..];
      if t == [] {
        assert t + w + b == w + b;
        CollapseRunFirst(w, b);
      } else {
        CollapseJoin(t, w, b);
      }
      CollapseJoinLetter(a, w, b);
    }
  }

  /** Base case of `CollapseJoin`: nothing before the run. */
  lemma CollapseRunFirst(w: string, b: string)
    requires |w| > 0 && forall i :: 0 <= i < |w| ==> IsSpace(w[i])
    requires b == [] || !IsSpace(b[0])
    ensures CollapseSpaces(w + b) == "-" + CollapseSpaces(b)
  {
    DropSpacesRun(w, b);
    CollapseStep(w + b);
  }

  /** Step of `CollapseJoin` when `a` starts with whitespace. */
  lemma CollapseJoinSpace(a: string, w: string, b: string)
    requires a != [] && IsSpace(a[0]) && !IsSpace(a[|a| - 1])
    requires DropSpaces(a) != []
    requires CollapseSpaces(DropSpaces(a) + w + b) == CollapseSpaces(DropSpaces(a)) + "-" + CollapseSpaces(b)
    ensures CollapseSpaces(a + w + b) == CollapseSpaces(a) + "-" + CollapseSpaces(b)
  {
    var a' := DropSpaces(a);
    var rest := w + b;
    assert a + w + b == a + rest;
    assert a' + w + b == a' + rest;
    var tail := CollapseSpaces(a') + "-" + CollapseSpaces(b);
    calc {
      CollapseSpaces(a + rest);
    ==  { DropSpacesAppend(a, rest); assert (a + rest)[0] == a[0]; CollapseStep(a + rest); }
      "-" + CollapseSpaces(a' + rest);
    ==
      "-" + tail;
    ==  { ConcatAssoc("-", CollapseSpaces(a'), "-", CollapseSpaces(b)); }
      ("-" + CollapseSpaces(a')) + "-" + CollapseSpaces(b);
    ==  { CollapseStep(a); }
      CollapseSpaces(a) + "-" + CollapseSpaces(b);
    }
  }

  /** Regrouping a four-part concatenation. */
  lemma ConcatAssoc(p: string, x: string, q: string, y: string)
    ensures p + (x + q + y) == (p + x) + q + y
  {
  }

  /** Step of `CollapseJoin` when `a` starts with a non-space character. */
  lemma CollapseJoinLetter(a: string, w: string, b: string)
    requires a != [] && !IsSpace(a[0])
    requires CollapseSpaces(a[1..] + w + b) == CollapseSpaces(a[1..]) + "-" + CollapseSpaces(b)
    ensures CollapseSpaces(a + w + b) == CollapseSpaces(a) + "-" + CollapseSpaces(b)
  {
    var t := a[1..];
    assert a + w + b == [a[0]] + (t + w + b);
    assert a == [a[0]] + t;
    calc {
      CollapseSpaces([a[0]] + (t + w + b));
    ==  { CollapseStep([a[0]] + (t + w + b)); assert ([a[0]] + (t + w + b))[1..] == t + w + b; }
      [a[0]] + CollapseSpaces(t + w + b);
    ==  { ConcatAssoc([a[0]], CollapseSpaces(t), "-", CollapseSpaces(b)); }
      ([a[0]] + CollapseSpaces(t)) + "-" + CollapseSpaces(b);
    ==  { CollapseStep([a[0]] + t); assert ([a[0]] + t)[1..] == t; }
      CollapseSpaces([a[0]] + t) + "-" + CollapseSpaces(b);
    }
  }

  /** Deriving a slug from a slug changes nothing. */
  lemma SlugifyIdempotent(title: string)
    ensures Slugify(Slugify(title)) == Slugify(title)
  {
    var s := Slugify(title);
    SlugCharacters(title);
    forall i | 0 <= i < |s| ensures LowerChar(s[i]) == s[i] {
      assert s[i] in s;
      if s[i] != '-' {
        var j :| 0 <= j < |title| && Lower(title)[j] == s[i];
      }
    }
    LowerFixed(s);
    forall i | 0 <= i < |s| ensures !IsSpace(s[i]) {
      assert s[i] in s;
    }
    CollapseWithoutSpaces(s);
  }

  /** A character that is neither whitespace nor the hyphen the replacement inserts. */
  predicate IsText(c: char)
  {
    !IsSpace(c) && c != '-'
  }

  /** Leading whitespace carries no text. */
  lemma {:induction false} DropSpacesText(s: string)
    ensures Seqs.Filter(IsText, DropSpaces(s)) == Seqs.Filter(IsText, s)
    decreases |s|
  {
    if s != [] && IsSpace(s[0]) {
      DropSpacesText(s[1..]);
    }
  }

  /** The replacement keeps every text character of its input, in order, and adds none. */
  lemma {:induction false} CollapseKeepsText(s: string)
    ensures Seqs.Filter(IsText, CollapseSpaces(s)) == Seqs.Filter(IsText, s)
    decreases |s|
  {
    if s != [] {
      var r := CollapseSpaces(s);
      if IsSpace(s[0]) {
        var rest := DropSpaces(s);
        assert r == "-" + CollapseSpaces(rest);
        assert r[1..] == CollapseSpaces(rest);
        CollapseKeepsText(rest);
        DropSpacesText(s);
      } else {
        assert r[1..] == CollapseSpaces(s[1..]);
        CollapseKeepsText(s[1..]);
      }
    }
  }

  /** Two space-free words around one whitespace run are joined by a single hyphen. */
  lemma CollapseTwoWords(a: string, w: string, b: string)
    requires a != [] && forall i :: 0 <= i < |a| ==> !IsSpace(a[i])
    requires |w| > 0 && forall i :: 0 <= i < |w| ==> IsSpace(w[i])
    requires b != [] && forall i :: 0 <= i < |b| ==> !IsSpace(b[i])
    ensures CollapseSpaces(a + w + b) == a + "-" + b
  {
    CollapseJoin(a, w, b);
    CollapseWithoutSpaces(a);
    CollapseWithoutSpaces(b);
  }

  /** A title with a run of three spaces gets a single hyphen, not three. */
  lemma HelloWorldSlug(t: string)
    requires t == "Hello   World!"
    ensures Slugify(t) == "hello-world!"
  {
    LowerHelloWorld(t);
    HelloWorldPieces();
    CollapseTwoWords("hello", "   ", "world!");
  }

  lemma LowerHelloWorld(t: string)
    requires t == "Hello   World!"
    ensures Lower(t) == "hello   world!"
  {
    HelloWorldChars(t);
    LowerByChars(t, "hello   world!");
  }

  /** The title lowered one character at a time. */
  lemma HelloWorldChars(t: string)
    requires t == "Hello   World!"
    ensures |t| == |"hello   world!"|
    ensures forall i :: 0 <= i < |t| ==> LowerChar(t[i]) == "hello   world!"[i]
  {
  }

  /** A string whose characters lower one by one to `l` lowers to `l`. */
  lemma LowerByChars(s: string, l: string)
    requires |s| == |l| && forall i :: 0 <= i < |s| ==> LowerChar(s[i]) == l[i]
    ensures Lower(s) == l
  {
  }

  lemma HelloWorldPieces()
    ensures "hello   world!" == "hello" + "   " + "world!"
    ensures "hello" + "-" + "world!" == "hello-world!"
    ensures forall i :: 0 <= i < |"hello"| ==> !IsSpace("hello"[i])
    ensures forall i :: 0 <= i < |"   "| ==> IsSpace("   "[i])
    ensures forall i :: 0 <= i < |"world!"| ==> !IsSpace("world!"[i])
  {
  }
}
