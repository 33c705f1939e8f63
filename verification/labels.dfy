/** `labelify` (migrate.py:74-78): the normaliser that turns a category or
    group name into a label name. It lowercases, replaces every maximal run of
    characters outside [A-Za-z0-9_.()] with one space, and strips trailing
    spaces. */
module Labels {
  import opened Text

  /** The characters the substitution keeps: the class [\w._()]. */
  predicate IsLabelChar(c: char) {
    IsWordChar(c) || c == '.' || c == '(' || c == ')'
  }

  /** A character `labelify` may emit: a lowercase label character or a space. */
  predicate IsOutputChar(c: char) {
    (IsLabelChar(c) && !IsUpper(c)) || c == ' '
  }

  predicate NoDoubleSpace(s: string) {
    forall i :: 0 <= i < |s| - 1 ==> s[i] != ' ' || s[i + 1] != ' '
  }

  predicate NoTrailingSpace(s: string) {
    |s| == 0 || s[|s| - 1] != ' '
  }

  /** The shape of every label `labelify` produces. */
  predicate IsLabel(s: string) {
    && (forall i :: 0 <= i < |s| ==> IsOutputChar(s[i]))
    && NoDoubleSpace(s)
    && NoTrailingSpace(s)
  }

  /** The label characters of `s`, in order; everything else dropped. */
  function LabelChars(s: string): (r: string)
    ensures forall i :: 0 <= i < |r| ==> IsLabelChar(r[i])
  {
    if |s| == 0 then []
    else if IsLabelChar(s[0]) then [s[0]] + LabelChars(s[1..])
    else LabelChars(s[1..])
  }

  /** The length of the run of non-label characters at the front of `s`. */
  function RunLength(s: string): (n: nat)
    ensures n <= |s|
    ensures n == |s| || IsLabelChar(s[n])
    ensures forall i :: 0 <= i < n ==> !IsLabelChar(s[i])
  {
    if |s| > 0 && !IsLabelChar(s[0]) then 1 + RunLength(s[1..]) else 0
  }

  /** `re.sub(r'[^\w._()]+', ' ', s)`: each maximal run of non-label
      characters becomes a single space. */
  function Collapse(s: string): (r: string)
    ensures |r| == 0 <==> |s| == 0
    ensures |s| > 0 && IsLabelChar(s[0]) ==> r[0] == s[0]
    ensures forall i :: 0 <= i < |r| ==> IsLabelChar(r[i]) || r[i] == ' '
    ensures (forall i :: 0 <= i < |s| ==> !IsUpper(s[i])) ==> forall i :: 0 <= i < |r| ==> !IsUpper(r[i])
    ensures NoDoubleSpace(r)
    decreases |s|
  {
    if |s| == 0 then []
    else if IsLabelChar(s[0]) then
      var t := s[1..];
      assert forall i :: 0 <= i < |t| ==> t[i] == s[i + 1];
      [s[0]] + Collapse(t)
    else
      var t := s[1 + RunLength(s[1..])..];
      [' '] + Collapse(t)
  }

  /** `s.rstrip(' ')`. */
  function RStrip(s: string): (r: string)
    ensures |r| <= |s| && r == s[..|r|]
    ensures NoTrailingSpace(r)
    ensures forall i :: |r| <= i < |s| ==> s[i] == ' '
  {
    if |s| > 0 && s[|s| - 1] == ' ' then RStrip(s[..|s| - 1]) else s
  }

  function Labelify(s: string): (r: string)
    ensures IsLabel(r)
  {
    var t := Collapse(Lower(s));
    var r := RStrip(t);
    assert forall i :: 0 <= i < |r| ==> r[i] == t[i];
    r
  }

  /** On a string that already has label shape, the substitution changes nothing. */
  lemma {:induction false} CollapseFixesLabelShape(s: string)
    requires forall i :: 0 <= i < |s| ==> IsOutputChar(s[i])
    requires NoDoubleSpace(s)
    ensures Collapse(s) == s
    decreases |s|
  {
    if |s| > 0 {
      var t := s[1..];
      assert forall i :: 0 <= i < |t| ==> t[i] == s[i + 1];
      if IsLabelChar(s[0]) {
        CollapseFixesLabelShape(t);
      } else {
        assert s[0] == ' ';
        assert RunLength(t) == 0;
        CollapseFixesLabelShape(t);
      }
    }
  }

  /** `labelify` leaves exactly the strings of label shape unchanged. */
  lemma LabelifyFixpoint(s: string)
    ensures Labelify(s) == s <==> IsLabel(s)
  {
    if IsLabel(s) {
      assert Lower(s) == s;
      CollapseFixesLabelShape(s);
    }
  }

  /** `labelify(labelify(s)) == labelify(s)`. */
  lemma LabelifyIdempotent(s: string)
    ensures Labelify(Labelify(s)) == Labelify(s)
  {
    LabelifyFixpoint(Labelify(s));
  }

  lemma {:induction false} LabelCharsConcat(a: string, b: string)
    ensures LabelChars(a + b) == LabelChars(a) + LabelChars(b)
    decreases |a|
  {
    if |a| > 0 {
      assert (a + b)[0] == a[0];
      assert (a + b)[1..] == a[1..] + b;
      LabelCharsConcat(a[1..], b);
    } else {
      assert a + b == b;
    }
  }

  lemma {:induction false} LabelCharsSkipRun(s: string)
    ensures LabelChars(s[RunLength(s)..]) == LabelChars(s)
    decreases |s|
  {
    if |s| > 0 && !IsLabelChar(s[0]) {
      LabelCharsSkipRun(s[1..]);
      assert s[1..][RunLength(s[1..])..] == s[RunLength(s)..];
    }
  }

  lemma {:induction false} LabelCharsCollapse(s: string)
    ensures LabelChars(Collapse(s)) == LabelChars(s)
    decreases |s|
  {
    if |s| > 0 {
      var c := if IsLabelChar(s[0]) then s[0] else ' ';
      var rest := if IsLabelChar(s[0]) then s[1..] else s[1 + RunLength(s[1..])..];
      assert Collapse(s) == [c] + Collapse(rest);
      LabelCharsConcat([c], Collapse(rest));
      LabelCharsCollapse(rest);
      if !IsLabelChar(s[0]) {
        LabelCharsSkipRun(s[1..]);
        assert rest == s[1..][RunLength(s[1..])..];
      }
    }
  }

  lemma {:induction false} LabelCharsRStrip(s: string)
    ensures LabelChars(RStrip(s)) == LabelChars(s)
    decreases |s|
  {
    if |s| > 0 && s[|s| - 1] == ' ' {
      var p := s[..|s| - 1];
      assert s == p + [' '];
      LabelCharsConcat(p, [' ']);
      LabelCharsRStrip(p);
    }
  }

  /** Nothing but separators is lost: the label characters of the result
      are the lowercased label characters of the input, in order. */
  lemma LabelifyKeepsLabelChars(s: string)
    ensures LabelChars(Labelify(s)) == LabelChars(Lower(s))
  {
    LabelCharsCollapse(Lower(s));
    LabelCharsRStrip(Collapse(Lower(s)));
  }

  lemma {:induction false} LabelCharsEmpty(s: string)
    ensures LabelChars(s) == [] <==> forall i :: 0 <= i < |s| ==> !IsLabelChar(s[i])
    decreases |s|
  {
    if |s| > 0 {
      LabelCharsEmpty(s[1..]);
      assert forall i :: 1 <= i < |s| ==> s[i] == s[1..][i - 1];
    }
  }

  /** A name yields the empty label exactly when it has no label character. */
  lemma LabelifyEmpty(s: string)
    ensures Labelify(s) == [] <==> forall i :: 0 <= i < |s| ==> !IsLabelChar(s[i])
  {
    var r := Labelify(s);
    LabelifyKeepsLabelChars(s);
    LabelCharsEmpty(r);
    LabelCharsEmpty(Lower(s));
    if forall i :: 0 <= i < |s| ==> !IsLabelChar(s[i]) {
      assert forall i :: 0 <= i < |s| ==> !IsLabelChar(Lower(s)[i]);
    } else {
      var k :| 0 <= k < |s| && IsLabelChar(s[k]);
      assert IsLabelChar(Lower(s)[k]);
    }
  }

  /** Every character outside [\w._()] replaced by a space, one for one. */
  function Blank(s: string): (r: string)
    ensures |r| == |s|
    ensures forall i :: 0 <= i < |s| ==> r[i] == if IsLabelChar(s[i]) then s[i] else ' '
  {
    seq(|s|, i requires 0 <= i < |s| => if IsLabelChar(s[i]) then s[i] else ' ')
  }

  /** Every space that is followed by another space dropped, so each run of
      spaces shrinks to one. */
  function DedupSpaces(s: string): (r: string)
    ensures |r| <= |s|
  {
    if |s| == 0 then []
    else if |s| > 1 && s[0] == ' ' && s[1] == ' ' then DedupSpaces(s[1..])
    else [s[0]] + DedupSpaces(s[1..])
  }

  lemma BlankCons(s: string)
    requires |s| > 0
    ensures Blank(s) == [if IsLabelChar(s[0]) then s[0] else ' '] + Blank(s[1..])
  {
    assert Blank(s)[1..] == Blank(s[1..]);
  }

  /** After a space, a run of separators and the single space that stands
      for it shrink to that one space. */
  lemma {:induction false} DedupSkipsRun(u: string)
    ensures DedupSpaces([' '] + Blank(u)) == [' '] + DedupSpaces(Blank(u[RunLength(u)..]))
    decreases |u|
  {
    var b := [' '] + Blank(u);
    assert b[1..] == Blank(u);
    if |u| == 0 {
      assert b == [' '];
    } else {
      BlankCons(u);
      if IsLabelChar(u[0]) {
        assert b[1] == u[0];
      } else {
        assert b[1] == ' ';
        DedupSkipsRun(u[1..]);
        assert u[1..][RunLength(u[1..])..] == u[RunLength(u)..];
      }
    }
  }

  /** The substitution is "blank every separator, then squeeze runs of
      spaces": each maximal run of separators becomes exactly one space and
      every label character stays where it was. */
  lemma {:induction false} CollapseIsBlankThenDedup(s: string)
    ensures Collapse(s) == DedupSpaces(Blank(s))
    decreases |s|
  {
    if |s| > 0 {
      BlankCons(s);
      var b := Blank(s);
      assert b[1..] == Blank(s[1..]);
      if IsLabelChar(s[0]) {
        assert b[0] == s[0] && s[0] != ' ';
        CollapseIsBlankThenDedup(s[1..]);
      } else {
        var u := s[1..];
        DedupSkipsRun(u);
        assert s[1 + RunLength(u)..] == u[RunLength(u)..];
        CollapseIsBlankThenDedup(u[RunLength(u)..]);
      }
    }
  }

  /** `labelify` in terms of the reference: lower, blank, squeeze, strip. */
  lemma LabelifyIsReference(s: string)
    ensures Labelify(s) == RStrip(DedupSpaces(Blank(Lower(s))))
  {
    CollapseIsBlankThenDedup(Lower(s));
  }
}
