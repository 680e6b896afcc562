/**
 * The string helpers of `src/utils/helpers.ts`: the colour maps, the email
 * pattern, the password/title/description rules, `truncateText`,
 * `capitalizeFirst` and `slugify`. Regular expressions are written out as
 * character-class predicates.
 */
module Helpers {
  import opened Wrappers
  import opened JsString
  import opened Constants

  // ---------------------------------------------------------------- colours

  const STATUS_PENDING_CLASSES := "text-amber-700 bg-amber-50 border-amber-200"
  const STATUS_IN_PROGRESS_CLASSES := "text-indigo-700 bg-indigo-50 border-indigo-200"
  const STATUS_COMPLETED_CLASSES := "text-emerald-700 bg-emerald-50 border-emerald-200"
  const STATUS_DEFAULT_CLASSES := "text-slate-700 bg-slate-50 border-slate-200"

  const PRIORITY_HIGH_CLASSES := "text-red-700 bg-red-50 border-red-200"
  const PRIORITY_MEDIUM_CLASSES := "text-orange-700 bg-orange-50 border-orange-200"
  const PRIORITY_LOW_CLASSES := "text-slate-600 bg-slate-50 border-slate-200"

  /** `getStatusColor`: a recognised status gets its own classes, any other
      string the slate default. */
  function GetStatusColor(status: string): (r: string)
    ensures r == STATUS_DEFAULT_CLASSES <==> ParseStatus(status).None?
    ensures ParseStatus(status) == Some(Pending) ==> r == STATUS_PENDING_CLASSES
    ensures ParseStatus(status) == Some(InProgress) ==> r == STATUS_IN_PROGRESS_CLASSES
    ensures ParseStatus(status) == Some(Completed) ==> r == STATUS_COMPLETED_CLASSES
  {
    if status == StatusName(Pending) then STATUS_PENDING_CLASSES
    else if status == StatusName(InProgress) then STATUS_IN_PROGRESS_CLASSES
    else if status == StatusName(Completed) then STATUS_COMPLETED_CLASSES
    else STATUS_DEFAULT_CLASSES
  }

  /** `getPriorityColor`: high and medium get their own classes; low and any
      unrecognised string share the slate classes. */
  function GetPriorityColor(priority: string): (r: string)
    ensures r == PRIORITY_LOW_CLASSES
            <==> ParsePriority(priority) != Some(High) && ParsePriority(priority) != Some(Medium)
    ensures ParsePriority(priority) == Some(High) ==> r == PRIORITY_HIGH_CLASSES
    ensures ParsePriority(priority) == Some(Medium) ==> r == PRIORITY_MEDIUM_CLASSES
  {
    if priority == PriorityName(High) then PRIORITY_HIGH_CLASSES
    else if priority == PriorityName(Medium) then PRIORITY_MEDIUM_CLASSES
    else if priority == PriorityName(Low) then PRIORITY_LOW_CLASSES
    else PRIORITY_LOW_CLASSES
  }

  /** Low priority and an unknown priority get the same classes. */
  lemma LowPriorityLooksUnknown(unknown: string)
    requires ParsePriority(unknown).None?
    ensures GetPriorityColor(unknown) == GetPriorityColor(PriorityName(Low))
  {
  }

  // ---------------------------------------------------------- email pattern

  /** A character of `[^\s@]`. */
  predicate Plain(c: char) {
    !IsWhitespace(c) && c != '@'
  }

  /** `s[lo..hi]` is a run of `[^\s@]`. */
  predicate PlainBetween(s: string, lo: int, hi: int)
    requires 0 <= lo <= hi <= |s|
  {
    forall k | lo <= k < hi :: Plain(s[k])
  }

  /** `/^[^\s@]+@[^\s@]+\.[^\s@]+$/.test(s)`: `s` splits as a non-empty plain
      run, `@`, a non-empty plain run, `.`, and a non-empty plain run. */
  ghost predicate EmailPattern(s: string) {
    exists i, j | 0 < i && i + 1 < j && j + 1 < |s| ::
      s[i] == '@' && s[j] == '.'
      && PlainBetween(s, 0, i) && PlainBetween(s, i + 1, j) && PlainBetween(s, j + 1, |s|)
  }

  /** `validateEmail` as the property the pattern amounts to: no whitespace,
      exactly one `@`, a non-empty part before it, and a domain with a `.`
      that is neither its first nor its last character. */
  predicate ValidateEmail(s: string) {
    (forall k | 0 <= k < |s| :: !IsWhitespace(s[k]))
    && '@' in s
    && var i := IndexOf(s, '@');
       0 < i
       && (forall k | i < k < |s| :: s[k] != '@')
       && (exists j | i + 1 < j < |s| - 1 :: s[j] == '.')
  }

  /** No `@` before the first one. */
  lemma BeforeFirst(s: string, c: char, k: int)
    requires c in s && 0 <= k < IndexOf(s, c)
    ensures s[k] != c
  {
    assert s[..IndexOf(s, c)][k] == s[k];
  }

  lemma ValidateEmailImpliesPattern(s: string)
    requires ValidateEmail(s)
    ensures EmailPattern(s)
  {
    var i := IndexOf(s, '@');
    var j :| i + 1 < j < |s| - 1 && s[j] == '.';
    forall k | 0 <= k < i ensures Plain(s[k]) { BeforeFirst(s, '@', k); }
    assert PlainBetween(s, 0, i) && PlainBetween(s, i + 1, j) && PlainBetween(s, j + 1, |s|);
  }

  lemma PatternImpliesValidateEmail(s: string)
    requires EmailPattern(s)
    ensures ValidateEmail(s)
  {
    var i, j :| 0 < i && i + 1 < j && j + 1 < |s|
      && s[i] == '@' && s[j] == '.'
      && PlainBetween(s, 0, i) && PlainBetween(s, i + 1, j) && PlainBetween(s, j + 1, |s|);
    forall k | 0 <= k < |s| ensures !IsWhitespace(s[k]) && (k != i ==> s[k] != '@') {
      if k < i { assert Plain(s[k]); }
      else if i < k < j { assert Plain(s[k]); }
      else if j < k { assert Plain(s[k]); }
    }
    var f := IndexOf(s, '@');
    if f > i { BeforeFirst(s, '@', i); }
    assert f == i;
  }

  /** The characterisation agrees with the pattern, in both directions. */
  lemma ValidateEmailMatchesPattern(s: string)
    ensures ValidateEmail(s) <==> EmailPattern(s)
  {
    if ValidateEmail(s) { ValidateEmailImpliesPattern(s); }
    if EmailPattern(s) { PatternImpliesValidateEmail(s); }
  }

  // ------------------------------------------------------------- validators

  /** `{ isValid, message? }`. */
  datatype Check = Valid | Invalid(message: string)

  /** `validatePassword`: invalid exactly when shorter than 6 characters. */
  function ValidatePassword(password: string): (r: Check)
    ensures r.Valid? <==> |password| >= PASSWORD_MIN_LENGTH
    ensures r.Invalid? ==> r.message == "Password must be at least 6 characters long"
  {
    if |password| < PASSWORD_MIN_LENGTH then Invalid("Password must be at least 6 characters long")
    else Valid
  }

  /** `validateTaskTitle`: invalid exactly when the trimmed title is shorter than 3. */
  function ValidateTaskTitle(title: string): (r: Check)
    ensures r.Valid? <==> |Trim(title)| >= TASK_TITLE_MIN_LENGTH
    ensures r.Invalid? ==> r.message == "Task title must be at least 3 characters long"
  {
    if |Trim(title)| < TASK_TITLE_MIN_LENGTH then Invalid("Task title must be at least 3 characters long")
    else Valid
  }

  /** `validateTaskDescription`: invalid exactly when longer than 500, so 500 is fine. */
  function ValidateTaskDescription(description: string): (r: Check)
    ensures r.Valid? <==> |description| <= TASK_DESCRIPTION_MAX_LENGTH
    ensures r.Invalid? ==> r.message == "Description must be less than 500 characters"
  {
    if |description| > TASK_DESCRIPTION_MAX_LENGTH then Invalid("Description must be less than 500 characters")
    else Valid
  }

  // ------------------------------------------------------ text transformers

  /** `truncateText`: the text itself when it fits, otherwise its first
      `maxLength` characters and `...` (a negative length keeps none). */
  function TruncateText(text: string, maxLength: int): (r: string)
    ensures |text| <= maxLength ==> r == text
    ensures |text| > maxLength ==>
              |r| == (if maxLength < 0 then 0 else maxLength) + 3
              && r[..|r| - 3] <= text && r[|r| - 3..] == "..."
  {
    if |text| <= maxLength then text
    else text[..if maxLength < 0 then 0 else maxLength] + "..."
  }

  /** Truncating twice with the same length is truncating once. */
  lemma TruncateIdempotent(text: string, maxLength: int)
    ensures TruncateText(TruncateText(text, maxLength), maxLength) == TruncateText(text, maxLength)
  {
    var r := TruncateText(text, maxLength);
    if |text| > maxLength {
      var n := if maxLength < 0 then 0 else maxLength;
      assert r[..n] == text[..n];
    }
  }

  /** `capitalizeFirst`: the first character upper-cased, the rest unchanged. */
  function CapitalizeFirst(s: string): (r: string)
    ensures |r| == |s|
    ensures s == [] ==> r == []
    ensures s != [] ==> r[0] == UpperChar(s[0]) && r[1..] == s[1..]
  {
    if s == [] then [] else [UpperChar(s[0])] + s[1..]
  }

  lemma CapitalizeFirstIdempotent(s: string)
    ensures CapitalizeFirst(CapitalizeFirst(s)) == CapitalizeFirst(s)
  {
  }

  // ----------------------------------------------------------------- slugify

  /** `\w`: ASCII letters, digits and underscore. */
  predicate IsWordChar(c: char) {
    ('a' <= c <= 'z') || ('A' <= c <= 'Z') || ('0' <= c <= '9') || c == '_'
  }

  /** A character of `[\s_-]`. */
  predicate IsSep(c: char) {
    IsWhitespace(c) || c == '_' || c == '-'
  }

  /** A character a slug may hold: `[a-z0-9-]`. */
  predicate IsSlugChar(c: char) {
    ('a' <= c <= 'z') || ('0' <= c <= '9') || c == '-'
  }

  predicate NoDoubleDash(s: string) {
    forall i | 0 <= i < |s| - 1 :: !(s[i] == '-' && s[i + 1] == '-')
  }

  predicate SlugChars(s: string) {
    forall i | 0 <= i < |s| :: IsSlugChar(s[i])
  }

  /** What `slugify` promises of its result. */
  predicate IsSlug(s: string) {
    SlugChars(s)
    && NoDoubleDash(s)
    && (s == [] || (s[0] != '-' && s[|s| - 1] != '-'))
  }

  predicate IsUpperAscii(c: char) {
    'A' <= c <= 'Z'
  }

  /** A character `[\s_-]` can turn into slug text: a separator or `[a-z0-9]`. */
  predicate IsSlugSource(c: char) {
    IsSep(c) || IsSlugChar(c)
  }

  /** `.replace(/[^\w\s-]/g, '')`: keeps word characters, whitespace and dashes. */
  function StripSymbols(s: string): (r: string)
    ensures |r| <= |s|
    ensures forall i | 0 <= i < |r| :: IsWordChar(r[i]) || IsWhitespace(r[i]) || r[i] == '-'
    ensures (forall i | 0 <= i < |s| :: !IsUpperAscii(s[i])) ==> (forall i | 0 <= i < |r| :: !IsUpperAscii(r[i]))
    ensures (forall i | 0 <= i < |s| :: IsWordChar(s[i]) || IsWhitespace(s[i]) || s[i] == '-') ==> r == s
  {
    if s == [] then []
    else
      var rest := StripSymbols(s[1..]);
      if IsWordChar(s[0]) || IsWhitespace(s[0]) || s[0] == '-' then
        assert [s[0]] + s[1..] == s;
        [s[0]] + rest
      else rest
  }

  /** Drops a leading run of separators. */
  function SkipSeps(s: string): (r: string)
    ensures |r| <= |s| && r == s[|s| - |r|..]
    ensures r == [] || !IsSep(r[0])
  {
    if s != [] && IsSep(s[0]) then SkipSeps(s[1..]) else s
  }

  /** `.replace(/[\s_-]+/g, '-')`: every maximal run of separators becomes one `-`. */
  function CollapseSeps(s: string): (r: string)
    ensures s == [] <==> r == []
    ensures s != [] && !IsSep(s[0]) ==> r[0] == s[0]
    ensures s != [] && IsSep(s[0]) ==> r[0] == '-'
    decreases |s|
  {
    if s == [] then []
    else if IsSep(s[0]) then "-" + CollapseSeps(SkipSeps(s[1..]))
    else [s[0]] + CollapseSeps(s[1..])
  }

  /** A dash produced for a run is never followed by another. */
  lemma {:induction false} CollapseSepsNoDoubleDash(s: string)
    ensures NoDoubleDash(CollapseSeps(s))
    decreases |s|
  {
    if s != [] {
      var r := CollapseSeps(s);
      if IsSep(s[0]) {
        var t := SkipSeps(s[1..]);
        CollapseSepsNoDoubleDash(t);
        var rest := CollapseSeps(t);
        assert r == "-" + rest;
        forall i | 0 <= i < |r| - 1 ensures !(r[i] == '-' && r[i + 1] == '-') {
          if i == 0 { assert r[1] == rest[0] == t[0]; } else { assert r[i] == rest[i - 1]; }
        }
      } else {
        CollapseSepsNoDoubleDash(s[1..]);
        var rest := CollapseSeps(s[1..]);
        assert r == [s[0]] + rest;
        forall i | 0 <= i < |r| - 1 ensures !(r[i] == '-' && r[i + 1] == '-') {
          if i > 0 { assert r[i] == rest[i - 1]; }
        }
      }
    }
  }

  predicate AllSlugSource(s: string) {
    forall i | 0 <= i < |s| :: IsSlugSource(s[i])
  }

  lemma SuffixKeepsSource(s: string, k: int)
    requires AllSlugSource(s) && 0 <= k <= |s|
    ensures AllSlugSource(s[k..])
  {
    forall i | 0 <= i < |s| - k ensures IsSlugSource(s[k..][i]) {
      assert s[k..][i] == s[k + i];
    }
  }

  /** Collapsing text made of separators and `[a-z0-9]` leaves only slug characters. */
  lemma {:induction false} CollapseSepsSlugChars(s: string)
    requires AllSlugSource(s)
    ensures SlugChars(CollapseSeps(s))
    decreases |s|
  {
    if s != [] {
      var r := CollapseSeps(s);
      if IsSep(s[0]) {
        var u := s[1..];
        var t := SkipSeps(u);
        assert t == u[|u| - |t|..];
        SuffixKeepsSource(s, 1);
        SuffixKeepsSource(u, |u| - |t|);
        CollapseSepsSlugChars(t);
        var rest := CollapseSeps(t);
        assert r == "-" + rest;
        forall i | 0 < i < |r| ensures IsSlugChar(r[i]) {
          assert r[i] == rest[i - 1];
        }
      } else {
        SuffixKeepsSource(s, 1);
        CollapseSepsSlugChars(s[1..]);
        var rest := CollapseSeps(s[1..]);
        assert r == [s[0]] + rest;
        assert IsSlugSource(s[0]);
        forall i | 0 < i < |r| ensures IsSlugChar(r[i]) {
          assert r[i] == rest[i - 1];
        }
      }
    }
  }

  /** Drops the leading dashes. */
  function DropLeadingDashes(s: string): (r: string)
    ensures |r| <= |s| && r == s[|s| - |r|..]
    ensures r == [] || r[0] != '-'
    ensures (s == [] || s[0] != '-') ==> r == s
  {
    if s != [] && s[0] == '-' then DropLeadingDashes(s[1..]) else s
  }

  /** Drops the trailing dashes. */
  function DropTrailingDashes(s: string): (r: string)
    ensures |r| <= |s| && r == s[..|r|]
    ensures r == [] || r[|r| - 1] != '-'
    ensures r != [] && s[0] != '-' ==> r[0] != '-'
    ensures (s == [] || s[|s| - 1] != '-') ==> r == s
  {
    if s != [] && s[|s| - 1] == '-' then DropTrailingDashes(s[..|s| - 1]) else s
  }

  /** `.replace(/^-+|-+$/g, '')`. */
  function TrimDashes(s: string): (r: string)
    ensures r == [] || (r[0] != '-' && r[|r| - 1] != '-')
  {
    DropTrailingDashes(DropLeadingDashes(s))
  }

  /** `slugify(text)`. */
  function Slugify(text: string): string {
    TrimDashes(CollapseSeps(StripSymbols(ToLower(text))))
  }

  /** A contiguous piece of text without `--` and with slug characters only
      keeps both properties. */
  lemma SliceKeepsSlug(s: string, lo: int, hi: int)
    requires 0 <= lo <= hi <= |s| && SlugChars(s) && NoDoubleDash(s)
    ensures SlugChars(s[lo..hi]) && NoDoubleDash(s[lo..hi])
  {
    var t := s[lo..hi];
    forall i | 0 <= i < |t| - 1 ensures !(t[i] == '-' && t[i + 1] == '-') {
      assert t[i] == s[lo + i] && t[i + 1] == s[lo + i + 1];
    }
  }

  /** A slug uses only `[a-z0-9-]`, has no `--` and no dash at either end. */
  lemma SlugifyIsSlug(text: string)
    ensures IsSlug(Slugify(text))
  {
    var lowered := ToLower(text);
    forall i | 0 <= i < |lowered| ensures !IsUpperAscii(lowered[i]) {
      LowerCharIdempotent(text[i]);
    }
    var stripped := StripSymbols(lowered);
    assert AllSlugSource(stripped);
    var collapsed := CollapseSeps(stripped);
    CollapseSepsSlugChars(stripped);
    CollapseSepsNoDoubleDash(stripped);
    var lead := DropLeadingDashes(collapsed);
    SliceKeepsSlug(collapsed, |collapsed| - |lead|, |collapsed|);
    var r := DropTrailingDashes(lead);
    SliceKeepsSlug(lead, 0, |r|);
    assert Slugify(text) == r;
  }

  /** The first character of a slug is a separator only when it is a dash
      followed by a non-separator. */
  lemma SlugHead(s: string)
    requires s != [] && SlugChars(s) && NoDoubleDash(s) && s[|s| - 1] != '-'
    ensures IsSep(s[0]) ==> s[0] == '-' && |s| >= 2 && !IsSep(s[1])
  {
    if IsSep(s[0]) {
      assert IsSlugChar(s[0]);
      assert |s| >= 2 && IsSlugChar(s[1]) && s[1] != '-';
    }
  }

  /** A slug is left alone by collapsing. */
  lemma {:induction false} CollapseSepsSlug(s: string)
    requires SlugChars(s) && NoDoubleDash(s) && (s == [] || s[|s| - 1] != '-')
    ensures CollapseSeps(s) == s
    decreases |s|
  {
    if s != [] {
      var tail := s[1..];
      SliceKeepsSlug(s, 1, |s|);
      SlugHead(s);
      assert tail == [] || tail[|tail| - 1] == s[|s| - 1];
      CollapseSepsSlug(tail);
      if IsSep(s[0]) {
        assert SkipSeps(tail) == tail;
      }
      assert s == [s[0]] + tail;
    }
  }

  lemma SlugFixpoint(s: string)
    requires IsSlug(s)
    ensures Slugify(s) == s
  {
    assert ToLower(s) == s;
    assert StripSymbols(s) == s;
    CollapseSepsSlug(s);
  }

  /** `slugify` is idempotent. */
  lemma SlugifyIdempotent(text: string)
    ensures Slugify(Slugify(text)) == Slugify(text)
  {
    SlugifyIsSlug(text);
    SlugFixpoint(Slugify(text));
  }
}
