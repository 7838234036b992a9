/** What a document id keeps of the ids it is named after. */
module DocumentNames {
  import opened Collections
  import opened Invoicing

  predicate Letter(c: char) { 'A' <= c <= 'Z' || 'a' <= c <= 'z' }

  predicate Digit(c: char) { '0' <= c <= '9' }

  /** Nothing but letters and digits, and at least one. */
  ghost predicate Word(s: string) {
    s != "" && forall c :: c in s ==> Letter(c) || Digit(c)
  }

  /** At least one character, and no letter or digit. */
  ghost predicate Separator(s: string) {
    s != "" && forall c :: c in s ==> !Letter(c) && !Digit(c)
  }

  /** The same word in capitals. */
  ghost predicate Capitals(s: string, t: string) {
    |t| == |s| && forall i :: 0 <= i < |s| ==> t[i] == if 'a' <= s[i] <= 'z' then s[i] - 'a' + 'A' else s[i]
  }

  predicate EndsInDash(s: string) { s != "" && s[|s| - 1] == '-' }

  // ---------------------------------------------------------------- letters, digits and what is between them

  lemma DashedSnoc(id: string, c: char)
    ensures Letter(c) || Digit(c) ==>
      Dashed(id + [c]) == Dashed(id) + [if 'a' <= c <= 'z' then c - 'a' + 'A' else c]
    ensures !Letter(c) && !Digit(c) ==>
      Dashed(id + [c]) == if EndsInDash(Dashed(id)) then Dashed(id) else Dashed(id) + "-"
  {
    assert (id + [c])[..|id|] == id;
  }

  lemma {:induction false} WordIsKept(id: string, w: string) returns (t: string)
    requires Word(w)
    ensures Capitals(w, t) && Dashed(id + w) == Dashed(id) + t
  {
    var init, c := w[..|w| - 1], w[|w| - 1];
    assert w == init + [c] && id + w == (id + init) + [c];
    DashedSnoc(id + init, c);
    if init == "" {
      assert id + init == id;
      t := [if 'a' <= c <= 'z' then c - 'a' + 'A' else c];
    } else {
      assert forall d :: d in init ==> d in w;
      t := WordIsKept(id, init);
      assert Dashed(id) + (t + [if 'a' <= c <= 'z' then c - 'a' + 'A' else c])
        == Dashed(id) + t + [if 'a' <= c <= 'z' then c - 'a' + 'A' else c];
      t := t + [if 'a' <= c <= 'z' then c - 'a' + 'A' else c];
    }
  }

  lemma {:induction false} SeparatorIsADash(id: string, sep: string)
    requires Separator(sep)
    ensures Dashed(id + sep) == if EndsInDash(Dashed(id)) then Dashed(id) else Dashed(id) + "-"
  {
    var init, c := sep[..|sep| - 1], sep[|sep| - 1];
    assert sep == init + [c] && id + sep == (id + init) + [c];
    DashedSnoc(id + init, c);
    if init == "" {
      assert id + init == id;
    } else {
      assert forall d :: d in init ==> d in sep;
      SeparatorIsADash(id, init);
    }
  }

  // ---------------------------------------------------------------- words in an id

  lemma CapitalsArePlain(w: string, t: string)
    requires Word(w) && Capitals(w, t)
    ensures t != "" && t[0] != '-' && t[|t| - 1] != '-'
  {
    assert w[0] in w && w[|w| - 1] in w;
  }

  lemma NothingBefore(w: string)
    ensures "" + w == w && Dashed("") == ""
  {
  }

  function Dash(there: bool): string { if there then "-" else "" }

  function Cut(s: string): string { if |s| <= 36 then s else s[..36] }

  /** A dash at either end is dropped, and then whatever is past 36 characters. */
  lemma Trimmed(id: string, core: string, before: bool, after: bool)
    requires core != "" && core[0] != '-' && core[|core| - 1] != '-'
    requires Dashed(id) == Dash(before) + (core + Dash(after))
    ensures Slug(id) == Cut(core)
  {
    var dashed, left := Dashed(id), core + Dash(after);
    FrontTrimmed(dashed, before, left);
    BackTrimmed(left, core, after);
  }

  lemma FrontTrimmed(dashed: string, before: bool, left: string)
    requires left != "" && left[0] != '-' && dashed == Dash(before) + left
    ensures left == if dashed != "" && dashed[0] == '-' then dashed[1..] else dashed
  {
  }

  lemma BackTrimmed(left: string, core: string, after: bool)
    requires core != "" && core[|core| - 1] != '-' && left == core + Dash(after)
    ensures core == if left != "" && left[|left| - 1] == '-' then left[..|left| - 1] else left
  {
  }

  /** A word of up to 36 characters is kept in capitals; of a longer one the first 36 are. */
  lemma {:induction false} WordIsNamed(w: string)
    requires Word(w)
    ensures Capitals(if |w| <= 36 then w else w[..36], Slug(w))
  {
    NothingBefore(w);
    var t := WordIsKept("", w);
    CapitalsArePlain(w, t);
    Trimmed(w, t, false, false);
  }

  lemma WordAlone(w: string) returns (t: string)
    requires Word(w)
    ensures Dashed(w) == t && t != "" && t[0] != '-' && t[|t| - 1] != '-' && Capitals(w, t)
    ensures Slug(w) == Cut(t)
  {
    NothingBefore(w);
    t := WordIsKept("", w);
    CapitalsArePlain(w, t);
    Trimmed(w, t, false, false);
  }

  lemma OneCapital(w: string, t: string, u: string)
    requires Capitals(w, t) && Capitals(w, u)
    ensures t == u
  {
  }

  lemma WordBetween(before: string, w: string, after: string) returns (t: string)
    requires Separator(before) && Word(w) && Separator(after)
    ensures Capitals(w, t) && Dashed(before + w + after) == "-" + (t + "-")
  {
    NothingBefore(before);
    SeparatorIsADash("", before);
    t := WordIsKept(before, w);
    CapitalsArePlain(w, t);
    SeparatorIsADash(before + w, after);
  }

  /** What surrounds a word is not kept. */
  lemma {:induction false} SurroundingsAreDropped(before: string, w: string, after: string)
    requires Separator(before) && Word(w) && Separator(after)
    ensures Slug(before + w + after) == Slug(w)
  {
    var t := WordAlone(w);
    var u := WordBetween(before, w, after);
    OneCapital(w, t, u);
    Trimmed(before + w + after, t, true, true);
  }

  /** Two words are kept with a single dash for whatever stands between them. */
  lemma {:induction false} WordsAreJoined(v: string, between: string, w: string)
    requires Word(v) && Separator(between) && Word(w) && |v| + 1 + |w| <= 36
    ensures Slug(v + between + w) == Slug(v) + "-" + Slug(w)
  {
    var t := WordAlone(v);
    var u := WordAlone(w);
    SeparatorIsADash(v, between);
    var u' := WordIsKept(v + between, w);
    OneCapital(w, u, u');
    Trimmed(v + between + w, t + "-" + u, false, false);
  }

  // ---------------------------------------------------------------- every id

  /** Only capitals, digits and dashes, and no two dashes together. */
  ghost predicate Tidy(s: string) {
    && (forall i :: 0 <= i < |s| ==> 'A' <= s[i] <= 'Z' || '0' <= s[i] <= '9' || s[i] == '-')
    && forall i :: 0 < i < |s| ==> s[i - 1] != '-' || s[i] != '-'
  }

  lemma {:induction false} DashedIsTidy(id: string)
    ensures Tidy(Dashed(id))
  {
    if id != "" {
      DashedIsTidy(id[..|id| - 1]);
      assert id == id[..|id| - 1] + [id[|id| - 1]];
    }
  }

  /** Whatever the id, what is kept of it is tidy, at most 36 characters, does not begin with a dash, and ends with one
      only where it was cut off. */
  lemma SlugIsTidy(id: string)
    ensures var slug := Slug(id);
      Tidy(slug) && |slug| <= 36 && (slug != "" ==> slug[0] != '-') && (EndsInDash(slug) ==> |slug| == 36)
  {
    DashedIsTidy(id);
  }
}
