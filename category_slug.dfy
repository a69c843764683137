/**
 * The admin category form's slug helper: `generateSlug` lower-cases a name, turns each
 * run of whitespace into one `-` and deletes every character that is not a word
 * character, `-` or a CJK unified ideograph (U+4E00 to U+9FA5); and the name field's
 * change handler, which fills the slug from the name.
 */
module CategorySlug {
  import Seqs

  /** The code points the regular-expression class `\s` matches. */
  predicate IsSpace(c: char)
  {
    var n := c as int;
    (9 <= n <= 13) || n == 32 || n == 0xA0 || n == 0x1680 || (0x2000 <= n <= 0x200A) ||
    n == 0x2028 || n == 0x2029 || n == 0x202F || n == 0x205F || n == 0x3000 || n == 0xFEFF
  }

  predicate IsUpper(c: char)
  {
    'A' <= c <= 'Z'
  }

  predicate IsCjk(c: char)
  {
    0x4E00 <= c as int <= 0x9FA5
  }

  /** The characters the second replacement keeps: `\w`, `-` and the CJK range. */
  predicate Kept(c: char)
  {
    'a' <= c <= 'z' || 'A' <= c <= 'Z' || '0' <= c <= '9' || c == '_' || c == '-' || IsCjk(c)
  }

  /** The characters a slug is made of. */
  predicate SlugChar(c: char)
  {
    'a' <= c <= 'z' || '0' <= c <= '9' || c == '_' || c == '-' || IsCjk(c)
  }

  function ToLower(c: char): (d: char)
    ensures !IsUpper(d)
    ensures IsUpper(c) ==> d as int == c as int + 32
    ensures !IsUpper(c) ==> d == c
  {
    if IsUpper(c) then (c as int + 32) as char else c
  }

  /** `toLowerCase`, restricted to ASCII letters. */
  function Lower(s: string): (r: string)
    ensures |r| == |s|
    ensures forall c :: c in r ==> !IsUpper(c)
    ensures forall i :: 0 <= i < |s| && !IsUpper(s[i]) ==> r[i] == s[i]
    ensures forall i :: 0 <= i < |s| && IsUpper(s[i]) ==> r[i] as int == s[i] as int + 32
  {
    seq(|s|, i requires 0 <= i < |s| => ToLower(s[i]))
  }

  /**
   * `replace(/\s+/g, '-')`, read left to right: `inRun` says whether the previous
   * character was whitespace. The first whitespace character of a run becomes `-`,
   * the rest of the run is dropped, and everything else is copied.
   */
  function ReplaceRuns(s: string, inRun: bool): (r: string)
    ensures |r| <= |s|
  {
    if s == [] then []
    else if IsSpace(s[0]) then (if inRun then "" else "-") + ReplaceRuns(s[1..], true)
    else [s[0]] + ReplaceRuns(s[1..], false)
  }

  /** The whitespace step of `generateSlug`. */
  function CollapseSpaces(s: string): (r: string)
    ensures |r| <= |s|
    ensures forall c :: c in r ==> !IsSpace(c) && (c == '-' || c in s)
    ensures (forall c :: c in s ==> !IsSpace(c)) ==> r == s
  {
    ReplaceRunsChars(s, false);
    assert (forall c :: c in s ==> !IsSpace(c)) ==> ReplaceRuns(s, false) == s by {
      if forall c :: c in s ==> !IsSpace(c) {
        ReplaceRunsWithoutSpaces(s, false);
      }
    }
    ReplaceRuns(s, false)
  }

  /** Whether the text after `a` starts inside a whitespace run. */
  function RunAfter(a: string, inRun: bool): bool
  {
    if a == [] then inRun else IsSpace(a[|a| - 1])
  }

  /** `generateSlug(name)`. */
  function GenerateSlug(name: string): (slug: string)
    ensures |slug| <= |name|
    ensures forall c :: c in slug ==> SlugChar(c) && !IsSpace(c)
  {
    var lowered := Lower(name);
    var collapsed := CollapseSpaces(lowered);
    var slug := Seqs.Filter(collapsed, Kept);
    ReplaceRunsChars(lowered, false);
    assert forall c :: c in slug ==> SlugChar(c) by {
      forall c | c in slug ensures SlugChar(c) {
        assert c in multiset(slug);
        assert c in collapsed;
        if c != '-' {
          var i :| 0 <= i < |lowered| && lowered[i] == c;
        }
      }
    }
    slug
  }

  // ---------------------------------------------------------------------------
  // Properties of the whitespace step.
  // ---------------------------------------------------------------------------

  /** The whitespace step leaves no whitespace and brings in no character but `-`. */
  lemma {:induction false} ReplaceRunsChars(s: string, inRun: bool)
    ensures forall c :: c in ReplaceRuns(s, inRun) ==> !IsSpace(c) && (c == '-' || c in s)
  {
    if s != [] {
      ReplaceRunsChars(s[1..], IsSpace(s[0]));
    }
  }

  /** Text without whitespace passes the whitespace step unchanged. */
  lemma {:induction false} ReplaceRunsWithoutSpaces(s: string, inRun: bool)
    requires forall c :: c in s ==> !IsSpace(c)
    ensures ReplaceRuns(s, inRun) == s
  {
    if s != [] {
      ReplaceRunsWithoutSpaces(s[1..], false);
    }
  }

  /** The whitespace step over `a + b` is the step over `a`, then over `b` continuing from where `a` ended. */
  lemma {:induction false} ReplaceRunsConcat(a: string, b: string, inRun: bool)
    ensures ReplaceRuns(a + b, inRun) == ReplaceRuns(a, inRun) + ReplaceRuns(b, RunAfter(a, inRun))
  {
    if a == [] {
      assert a + b == b;
    } else {
      var next := IsSpace(a[0]);
      assert (a + b)[0] == a[0] && (a + b)[1..] == a[1..] + b;
      assert RunAfter(a[1..], next) == RunAfter(a, inRun);
      ReplaceRunsConcat(a[1..], b, next);
      var head := if next then (if inRun then "" else "-") else [a[0]];
      calc {
        ReplaceRuns(a + b, inRun);
        head + ReplaceRuns(a[1..] + b, next);
        head + (ReplaceRuns(a[1..], next) + ReplaceRuns(b, RunAfter(a, inRun)));
        (head + ReplaceRuns(a[1..], next)) + ReplaceRuns(b, RunAfter(a, inRun));
      }
    }
  }

  /** A run of whitespace followed by something else (or by nothing) yields one `-`. */
  lemma {:induction false} ReplaceRunsRun(w: string, b: string, inRun: bool)
    requires forall c :: c in w ==> IsSpace(c)
    requires b == [] || !IsSpace(b[0])
    ensures ReplaceRuns(w + b, inRun) == (if w == [] || inRun then "" else "-") + ReplaceRuns(b, false)
  {
    if w == [] {
      assert w + b == b;
      if b != [] {
        assert ReplaceRuns(b, inRun) == ReplaceRuns(b, false);
      }
    } else {
      assert (w + b)[0] == w[0] && (w + b)[1..] == w[1..] + b;
      ReplaceRunsRun(w[1..], b, true);
    }
  }

  /**
   * Each maximal run of whitespace becomes exactly one `-`: with the run `w` bounded
   * on both sides by non-whitespace (or the ends of the text), the text around it is
   * treated separately and the run turns into a single dash.
   */
  lemma RunBecomesOneDash(a: string, w: string, b: string)
    requires a == [] || !IsSpace(a[|a| - 1])
    requires w != [] && forall c :: c in w ==> IsSpace(c)
    requires b == [] || !IsSpace(b[0])
    ensures CollapseSpaces(a + w + b) == CollapseSpaces(a) + "-" + CollapseSpaces(b)
  {
    assert a + w + b == a + (w + b);
    ReplaceRunsConcat(a, w + b, false);
    ReplaceRunsRun(w, b, false);
  }

  // ---------------------------------------------------------------------------
  // Properties of the whole transform.
  // ---------------------------------------------------------------------------

  /** Text without upper-case letters passes the lower-casing step unchanged. */
  lemma LowerWithoutUpper(s: string)
    requires forall c :: c in s ==> !IsUpper(c)
    ensures Lower(s) == s
  {
    assert forall i :: 0 <= i < |s| ==> Lower(s)[i] == s[i];
  }

  /** A slug is its own slug: applying `generateSlug` twice changes nothing more. */
  lemma GenerateSlugIdempotent(name: string)
    ensures GenerateSlug(GenerateSlug(name)) == GenerateSlug(name)
  {
    var slug := GenerateSlug(name);
    LowerWithoutUpper(slug);
    ReplaceRunsWithoutSpaces(slug, false);
    Seqs.FilterKeepsAll(slug, Kept);
  }

  /**
   * The slug is built piece by piece and in order: cut the name anywhere that does not
   * split a whitespace run, and the slug is the slug of the first part followed by the
   * slug of the second.
   */
  lemma GenerateSlugConcat(a: string, b: string)
    requires a == [] || !IsSpace(a[|a| - 1])
    ensures GenerateSlug(a + b) == GenerateSlug(a) + GenerateSlug(b)
  {
    var la, lb := Lower(a), Lower(b);
    var ca, cb := CollapseSpaces(la), CollapseSpaces(lb);
    assert Lower(a + b) == la + lb by {
      LowerConcat(a, b);
    }
    assert CollapseSpaces(la + lb) == ca + cb by {
      assert la == [] || !IsSpace(la[|la| - 1]);
      ReplaceRunsConcat(la, lb, false);
    }
    assert Seqs.Filter(ca + cb, Kept) == Seqs.Filter(ca, Kept) + Seqs.Filter(cb, Kept) by {
      Seqs.FilterConcat(ca, cb, Kept);
    }
  }

  lemma LowerConcat(a: string, b: string)
    ensures Lower(a + b) == Lower(a) + Lower(b)
  {
  }

  // ---------------------------------------------------------------------------
  // The slug auto-fill in the category form.
  // ---------------------------------------------------------------------------

  /** The form's fields. */
  datatype CategoryForm = CategoryForm(name: string, slug: string, description: string)

  /** The slug field's change handler: the typed value replaces the slug. */
  function OnSlugChange(form: CategoryForm, slug: string): (f: CategoryForm)
    ensures f.slug == slug && f.name == form.name && f.description == form.description
  {
    form.(slug := slug)
  }

  /** The name field's change handler as written: the slug is filled from the name only while it is empty. */
  function OnNameChange(form: CategoryForm, name: string): (f: CategoryForm)
    ensures f.name == name && f.description == form.description
    ensures form.slug != "" ==> f.slug == form.slug
    ensures form.slug == "" ==> f.slug == GenerateSlug(name)
  {
    form.(name := name, slug := if form.slug != "" then form.slug else GenerateSlug(name))
  }

  /** The form after the name field reports each value in `names` in turn, as it does once per keystroke. */
  function TypeName(form: CategoryForm, names: seq<string>): CategoryForm
    decreases |names|
  {
    if names == [] then form else TypeName(OnNameChange(form, names[0]), names[1..])
  }

  /** Once the slug is non-empty, no sequence of name edits changes it. */
  lemma {:induction false} SlugKeptWhileTyping(form: CategoryForm, names: seq<string>)
    requires form.slug != ""
    ensures TypeName(form, names).slug == form.slug
    decreases |names|
  {
    if names != [] {
      SlugKeptWhileTyping(OnNameChange(form, names[0]), names[1..]);
    }
  }

  /**
   * Typing the name "Go" one key at a time leaves the slug "g": the first keystroke
   * fills the slug and every later keystroke finds it non-empty.
   */
  lemma SlugFrozenAfterFirstKeystroke()
    ensures GenerateSlug("Go") == "go"
    ensures TypeName(CategoryForm("", "", ""), ["G", "Go"]).slug == "g"
  {
    assert Lower("G") == "g";
    assert CollapseSpaces("g") == "g";
    assert Seqs.Filter("g", Kept) == "g";
    assert Lower("Go") == "go";
    ReplaceRunsWithoutSpaces("go", false);
    Seqs.FilterKeepsAll("go", Kept);
    var first := OnNameChange(CategoryForm("", "", ""), "G");
    assert first.slug == "g";
    SlugKeptWhileTyping(first, ["Go"]);
  }

  /** The form with a record of whether the administrator has typed into the slug field. */
  datatype SlugForm = SlugForm(name: string, slug: string, description: string, slugEdited: bool)

  /** The slug field's change handler that remembers the slug was chosen by hand. */
  function OnSlugEdit(form: SlugForm, slug: string): (f: SlugForm)
    ensures f.slug == slug && f.slugEdited
    ensures f.name == form.name && f.description == form.description
  {
    form.(slug := slug, slugEdited := true)
  }

  /** The name field's change handler with the slug following the name until it is edited by hand. */
  function OnNameEdit(form: SlugForm, name: string): (f: SlugForm)
    ensures f.name == name && f.description == form.description && f.slugEdited == form.slugEdited
    ensures form.slugEdited ==> f.slug == form.slug
    ensures !form.slugEdited ==> f.slug == GenerateSlug(name)
  {
    form.(name := name, slug := if form.slugEdited then form.slug else GenerateSlug(name))
  }

  function TypeNameInto(form: SlugForm, names: seq<string>): SlugForm
    decreases |names|
  {
    if names == [] then form else TypeNameInto(OnNameEdit(form, names[0]), names[1..])
  }

  /**
   * Until the slug is edited by hand it is always the slug of the latest name, however
   * the name was typed; a hand-edited slug is never replaced.
   */
  lemma {:induction false} SlugFollowsName(form: SlugForm, names: seq<string>)
    requires names != []
    ensures !form.slugEdited ==> TypeNameInto(form, names).slug == GenerateSlug(names[|names| - 1])
    ensures form.slugEdited ==> TypeNameInto(form, names).slug == form.slug
    ensures TypeNameInto(form, names).name == names[|names| - 1]
    decreases |names|
  {
    if |names| > 1 {
      SlugFollowsName(OnNameEdit(form, names[0]), names[1..]);
    }
  }
}
