/**
 * The prompt template engine (`prompting/prompt.py`).
 *
 * A `Prompt` holds a template text with `$name` placeholders.  The names are
 * read from the text once, when the prompt is made, and from then on they are
 * the only names `Set` accepts.  `Build` substitutes the values that are set,
 * one name after another, into a string that accumulates the replacements.
 * Values are represented by their `str()` text; `None` stands for Python's
 * `None`, the "not set" marker.
 */
module Prompting {
  import opened Wrappers
  import opened Text
  import opened Dicts

  /** The reasons for which the engine raises; in Python each of them is a plain `ValueError`. */
  datatype ValueError =
    | UnknownParameter(name: string)
    | UnsetParameter(name: string)
    | InvalidImageFormat
    | InvalidImageUrl
    | EmptyTemplate
    | InvalidConfigFile(path: string)

  // ---------------------------------------------------------------------
  // Placeholders: re.findall(r'\$\w+', template)

  /** `\w`, restricted to ASCII (letters, digits, underscore). */
  predicate IsWordChar(c: char) {
    ('a' <= c <= 'z') || ('A' <= c <= 'Z') || ('0' <= c <= '9') || c == '_'
  }

  /** The longest run of word characters at the start of `s`: what `\w+` consumes. */
  function WordPrefix(s: string): (w: string)
    ensures |w| <= |s| && w == s[..|w|]
    ensures forall k :: 0 <= k < |w| ==> IsWordChar(w[k])
    ensures |w| == |s| || !IsWordChar(s[|w|])
  {
    if s != [] && IsWordChar(s[0]) then [s[0]] + WordPrefix(s[1..]) else []
  }

  /**
   * The names matched by `\$\w+`, left to right, each without its `$`.
   * A match at one position resumes the scan after the matched run.
   */
  function Placeholders(s: string): seq<string>
    decreases |s|
  {
    if |s| < 2 then []
    else if s[0] == '$' && IsWordChar(s[1]) then
      var w := WordPrefix(s[1..]);
      [w] + Placeholders(s[1 + |w|..])
    else Placeholders(s[1..])
  }

  /** The distinct placeholder names of a template: the keys of `_read_params`. */
  function PlaceholderNames(s: string): set<string> {
    set i | 0 <= i < |Placeholders(s)| :: Placeholders(s)[i]
  }

  /** At position `i` of `s` stands a `$` followed by the word run `name`. */
  predicate DeclaredAt(s: string, i: int, name: string) {
    0 <= i < |s| - 1 && s[i] == '$' && IsWordChar(s[i + 1]) && WordPrefix(s[i + 1..]) == name
  }

  /** A declaration seen in a suffix of `s` is a declaration of `s`, shifted. */
  lemma DeclaredInSuffix(s: string, k: nat, j: nat, name: string)
    requires k <= |s| && DeclaredAt(s[k..], j, name)
    ensures DeclaredAt(s, j + k, name)
  {
    assert s[k..][j + 1..] == s[j + k + 1..];
  }

  /** A declaration of `s` past `k` is a declaration of the suffix from `k`. */
  lemma DeclaredPastPrefix(s: string, k: nat, i: int, name: string)
    requires k <= i && DeclaredAt(s, i, name)
    ensures DeclaredAt(s[k..], i - k, name)
  {
    assert s[k..][i - k + 1..] == s[i + 1..];
  }

  /** The scan at a `$` followed by a word character: one match, then the rest after its run. */
  lemma PlaceholdersAtMatch(s: string)
    requires |s| >= 2 && s[0] == '$' && IsWordChar(s[1])
    ensures Placeholders(s) == [WordPrefix(s[1..])] + Placeholders(s[1 + |WordPrefix(s[1..])|..])
  {
  }

  /** Matches after the first one at a `$` are the matches of the rest, one index later. */
  lemma MatchShiftsIndex(s: string, k: nat)
    requires |s| >= 2 && s[0] == '$' && IsWordChar(s[1])
    requires k < |Placeholders(s[1 + |WordPrefix(s[1..])|..])|
    ensures k + 1 < |Placeholders(s)|
    ensures Placeholders(s)[k + 1] == Placeholders(s[1 + |WordPrefix(s[1..])|..])[k]
  {
    PlaceholdersAtMatch(s);
  }

  /** The scan anywhere else moves on by one character. */
  lemma PlaceholdersElsewhere(s: string)
    requires |s| >= 2 && !(s[0] == '$' && IsWordChar(s[1]))
    ensures Placeholders(s) == Placeholders(s[1..])
  {
  }

  /** Every match of the scan stands at some position of the text. */
  lemma {:induction false} PlaceholderHasPosition(s: string, k: nat) returns (i: int)
    requires k < |Placeholders(s)|
    ensures DeclaredAt(s, i, Placeholders(s)[k])
    decreases |s|
  {
    var name := Placeholders(s)[k];
    if s[0] == '$' && IsWordChar(s[1]) {
      var w := WordPrefix(s[1..]);
      var t := s[1 + |w|..];
      PlaceholdersAtMatch(s);
      if k == 0 {
        i := 0;
      } else {
        assert name == Placeholders(t)[k - 1];
        var j := PlaceholderHasPosition(t, k - 1);
        DeclaredInSuffix(s, 1 + |w|, j, name);
        i := j + 1 + |w|;
      }
    } else {
      PlaceholdersElsewhere(s);
      var j := PlaceholderHasPosition(s[1..], k);
      DeclaredInSuffix(s, 1, j, name);
      i := j + 1;
    }
  }

  /** A `$` cannot stand inside the word run a match consumes. */
  lemma NotInsideWord(s: string, i: int, name: string)
    requires |s| >= 2 && s[0] == '$' && IsWordChar(s[1]) && DeclaredAt(s, i, name)
    ensures i == 0 || i > |WordPrefix(s[1..])|
  {
    var w := WordPrefix(s[1..]);
    assert forall k :: 1 <= k <= |w| ==> s[k] == w[k - 1];
  }

  /** A declaration at the very start is the first match. */
  lemma DeclaredFirst(s: string, name: string)
    requires DeclaredAt(s, 0, name)
    ensures 0 < |Placeholders(s)| && Placeholders(s)[0] == name
  {
    PlaceholdersAtMatch(s);
  }

  /** Every `$` directly followed by a word character starts a match of the scan. */
  lemma {:induction false} PositionHasPlaceholder(s: string, i: int, name: string) returns (k: nat)
    requires DeclaredAt(s, i, name)
    ensures k < |Placeholders(s)| && Placeholders(s)[k] == name
    decreases |s|
  {
    if i == 0 {
      DeclaredFirst(s, name);
      k := 0;
    } else if s[0] == '$' && IsWordChar(s[1]) {
      var n := 1 + |WordPrefix(s[1..])|;
      NotInsideWord(s, i, name);
      DeclaredPastPrefix(s, n, i, name);
      var k' := PositionHasPlaceholder(s[n..], i - n, name);
      MatchShiftsIndex(s, k');
      k := k' + 1;
    } else {
      PlaceholdersElsewhere(s);
      DeclaredPastPrefix(s, 1, i, name);
      k := PositionHasPlaceholder(s[1..], i - 1, name);
    }
  }

  /**
   * The placeholder names are exactly the word runs that follow some `$` in the
   * text: every `$` directly followed by a word character starts a match.
   */
  lemma PlaceholderNamesAreDollarRuns(s: string, name: string)
    ensures name in PlaceholderNames(s) <==> exists i :: DeclaredAt(s, i, name)
  {
    if name in PlaceholderNames(s) {
      var k :| 0 <= k < |Placeholders(s)| && Placeholders(s)[k] == name;
      var i := PlaceholderHasPosition(s, k);
    }
    if i :| DeclaredAt(s, i, name) {
      var k := PositionHasPlaceholder(s, i, name);
    }
  }

  /** `o` lists each element of `s` exactly once: one iteration order of the set. */
  predicate Enumerates(o: seq<string>, s: set<string>) {
    && (forall i, j :: 0 <= i < j < |o| ==> o[i] != o[j])
    && (forall i :: 0 <= i < |o| ==> o[i] in s)
    && (forall x :: x in s ==> x in o)
  }

  lemma {:induction false} EnumerationExists(s: set<string>)
    ensures exists o :: Enumerates(o, s)
    decreases |s|
  {
    if s == {} {
      assert Enumerates([], s);
    } else {
      var x :| x in s;
      EnumerationExists(s - {x});
      var o :| Enumerates(o, s - {x});
      assert Enumerates(o + [x], s);
    }
  }

  /**
   * `_read_params`: a dict with one unset entry per distinct placeholder name.
   * The names go through a Python `set`, whose iteration order is not fixed
   * (it depends on string hashing), so the key order is any order of the names.
   */
  method ReadParams(template: string) returns (params: Dict<string, Option<string>>)
    ensures params.Valid()
    ensures Enumerates(params.keys, PlaceholderNames(template))
    ensures params.entries.Keys == PlaceholderNames(template)
    ensures forall name :: name in params.entries ==> params.entries[name] == None
  {
    var names := PlaceholderNames(template);
    EnumerationExists(names);
    var order :| Enumerates(order, names);
    params := Dict(order, map name | name in names :: None);
  }

  // ---------------------------------------------------------------------
  // Building: sequential str.replace over an accumulating string

  /**
   * What `build` computes from the accumulated text `acc` and the remaining
   * `(name, value)` pairs in dict order: an unset value raises, or is skipped
   * when missing values are ignored; a set value replaces every `$name` of the
   * text accumulated so far.
   */
  function Substitute(acc: string, items: seq<(string, Option<string>)>, ignoreMissing: bool): Result<string, ValueError>
    decreases |items|
  {
    if items == [] then Ok(acc)
    else
      var (name, value) := items[0];
      match value
      case None =>
        if ignoreMissing then Substitute(acc, items[1..], ignoreMissing) else Err(UnsetParameter(name))
      case Some(text) => Substitute(ReplaceAll(acc, "$" + name, text), items[1..], ignoreMissing)
  }

  /**
   * `build` raises exactly when missing values are not ignored and some value
   * is unset, and then it names the first unset parameter in dict order.
   */
  lemma {:induction false} BuildFailsIff(acc: string, items: seq<(string, Option<string>)>, ignoreMissing: bool)
    ensures Substitute(acc, items, ignoreMissing).Err?
            <==> !ignoreMissing && exists i :: 0 <= i < |items| && items[i].1 == None
    ensures Substitute(acc, items, ignoreMissing).Err? ==>
              exists i :: 0 <= i < |items| && items[i].1 == None
                && (forall j :: 0 <= j < i ==> items[j].1 != None)
                && Substitute(acc, items, ignoreMissing).error == UnsetParameter(items[i].0)
    decreases |items|
  {
    if items != [] {
      var (name, value) := items[0];
      var next := if value.Some? then ReplaceAll(acc, "$" + name, value.value) else acc;
      BuildFailsIff(next, items[1..], ignoreMissing);
      if value.Some? || ignoreMissing {
        assert Substitute(acc, items, ignoreMissing) == Substitute(next, items[1..], ignoreMissing);
        if exists i :: 0 <= i < |items| && items[i].1 == None {
          var i :| 0 <= i < |items| && items[i].1 == None;
          if value.Some? {
            assert items[1..][i - 1].1 == None;
          }
        }
        if Substitute(acc, items, ignoreMissing).Err? {
          var i :| 0 <= i < |items[1..]| && items[1..][i].1 == None
                  && (forall j :: 0 <= j < i ==> items[1..][j].1 != None)
                  && Substitute(next, items[1..], ignoreMissing).error == UnsetParameter(items[1..][i].0);
          assert items[i + 1] == items[1..][i];
          assert value.Some?;
          assert forall j :: 0 <= j < i + 1 ==> items[j].1 != None by {
            forall j | 0 <= j < i + 1 ensures items[j].1 != None {
              if j > 0 { assert items[j] == items[1..][j - 1]; }
            }
          }
        }
      }
    }
  }

  /** The pairs whose value is set, in order. */
  function SetItems(items: seq<(string, Option<string>)>): (r: seq<(string, Option<string>)>)
    ensures forall i :: 0 <= i < |r| ==> r[i].1 != None
  {
    if items == [] then []
    else if items[0].1 == None then SetItems(items[1..])
    else [items[0]] + SetItems(items[1..])
  }

  /**
   * When missing values are ignored, `build` never raises and gives what
   * substituting only the set values gives: unset placeholders are left alone.
   */
  lemma {:induction false} IgnoringMissingSkipsUnset(acc: string, items: seq<(string, Option<string>)>)
    ensures Substitute(acc, items, true) == Substitute(acc, SetItems(items), false)
    ensures Substitute(acc, items, true).Ok?
    decreases |items|
  {
    if items != [] {
      var (name, value) := items[0];
      var next := if value.Some? then ReplaceAll(acc, "$" + name, value.value) else acc;
      IgnoringMissingSkipsUnset(next, items[1..]);
    }
  }

  /**
   * Substitution is sequential: a value that itself holds `$b` is expanded by
   * a later replacement of `b`, while the same values in the other order
   * leave `$b` in the output.
   */
  lemma SubstitutionIsSequential()
    ensures Substitute("$a", [("a", Some("$b")), ("b", Some("B"))], false) == Ok("B")
    ensures Substitute("$a", [("b", Some("B")), ("a", Some("$b"))], false) == Ok("$b")
  {
    assert ReplaceAll("$a", "$a", "$b") == "$b" by {
      assert "$a"[..2] == "$a";
      assert "$a"[2..] == [];
    }
    assert ReplaceAll("$b", "$b", "B") == "B" by {
      assert "$b"[..2] == "$b";
      assert "$b"[2..] == [];
    }
    assert ReplaceAll("$a", "$b", "B") == "$a" by {
      assert "$a"[..2] != "$b";
      assert "$a"[1..] == "a";
    }
  }

  /**
   * A placeholder whose name extends another's is spoiled when the shorter
   * one is replaced first: `$a` also matches the start of `$ab`, so the
   * result of `"$a $ab"` depends on the order of the names.
   */
  lemma PrefixNameReplacedFirst()
    ensures Substitute("$a $ab", [("a", Some("X")), ("ab", Some("Y"))], false) == Ok("X Xb")
    ensures Substitute("$a $ab", [("ab", Some("Y")), ("a", Some("X"))], false) == Ok("X Y")
  {
    ShortNameFirstSubstitution();
    LongNameFirstSubstitution();
  }

  lemma ShortNameFirstSubstitution()
    ensures Substitute("$a $ab", [("a", Some("X")), ("ab", Some("Y"))], false) == Ok("X Xb")
  {
    var short, long := ("a", Some("X")), ("ab", Some("Y"));
    assert Substitute("$a $ab", [short, long], false) == Substitute("X Xb", [long], false) by {
      ShortNameFirst();
      assert [short, long][1..] == [long];
    }
    assert Substitute("X Xb", [long], false) == Ok("X Xb") by {
      LongNameUntouched();
      assert [long][1..] == [];
    }
  }

  lemma LongNameFirstSubstitution()
    ensures Substitute("$a $ab", [("ab", Some("Y")), ("a", Some("X"))], false) == Ok("X Y")
  {
    var short, long := ("a", Some("X")), ("ab", Some("Y"));
    assert Substitute("$a $ab", [long, short], false) == Substitute("$a Y", [short], false) by {
      LongNameFirst();
      assert [long, short][1..] == [short];
    }
    assert Substitute("$a Y", [short], false) == Ok("X Y") by {
      ShortNameAfter();
      assert [short][1..] == [];
    }
  }

  lemma ShortNameFirst()
    ensures ReplaceAll("$a $ab", "$a", "X") == "X Xb"
  {
    assert "$a $ab"[..2] == "$a" && "$a $ab"[2..] == " $ab";
    assert " $ab"[..2] != "$a" && " $ab"[1..] == "$ab";
    assert "$ab"[..2] == "$a" && "$ab"[2..] == "b";
  }

  lemma LongNameUntouched()
    ensures ReplaceAll("X Xb", "$ab", "Y") == "X Xb"
  {
    assert "X Xb"[..3] != "$ab" && "X Xb"[1..] == " Xb";
    assert " Xb"[..3] != "$ab" && " Xb"[1..] == "Xb";
  }

  lemma LongNameFirst()
    ensures ReplaceAll("$a $ab", "$ab", "Y") == "$a Y"
  {
    assert "$ab"[..3] == "$ab" && "$ab"[3..] == [];
    assert ReplaceAll("$ab", "$ab", "Y") == "Y";
    assert " $ab"[0] == ' ' && " $ab"[1..] == "$ab";
    assert ReplaceAll(" $ab", "$ab", "Y") == " Y";
    assert "a $ab"[0] == 'a' && "a $ab"[1..] == " $ab";
    assert ReplaceAll("a $ab", "$ab", "Y") == "a Y";
    assert "$a $ab"[2] == ' ' && "$a $ab"[1..] == "a $ab";
  }

  lemma ShortNameAfter()
    ensures ReplaceAll("$a Y", "$a", "X") == "X Y"
  {
    assert "$a Y"[..2] == "$a" && "$a Y"[2..] == " Y";
    assert " Y"[..2] != "$a" && " Y"[1..] == "Y";
  }

  // ---------------------------------------------------------------------
  // Image URL: the URL or file classification of the image_url setter

  /** `re.match(r'^https?://', url)` */
  predicate IsHttpUrl(url: string) {
    StartsWith(url, "http://") || StartsWith(url, "https://")
  }

  /** The last index of `c` in `s`, or -1: `str.rfind`. */
  function LastIndexOf(s: string, c: char): (k: int)
    ensures -1 <= k < |s|
    ensures k >= 0 ==> s[k] == c
    ensures forall j :: k < j < |s| ==> s[j] != c
  {
    if s == [] then -1
    else if s[|s| - 1] == c then |s| - 1
    else LastIndexOf(s[..|s| - 1], c)
  }

  /** Some character of `s[lo..hi]` is not a dot. */
  predicate HasNonDot(s: string, lo: int, hi: int)
    requires 0 <= lo <= hi <= |s|
  {
    exists k :: lo <= k < hi && s[k] != '.'
  }

  /**
   * `os.path.splitext(path)[1]` on POSIX: from the last dot of the last path
   * component, provided that dot follows something other than leading dots.
   */
  function Extension(path: string): string {
    var sep := LastIndexOf(path, '/');
    var dot := LastIndexOf(path, '.');
    if dot > sep && HasNonDot(path, sep + 1, dot) then path[dot..] else ""
  }

  /** An extension is empty, or a dot followed by characters that are neither dots nor slashes. */
  lemma ExtensionShape(path: string)
    ensures var e := Extension(path);
            e == [] || (e[0] == '.' && EndsWith(path, e)
                        && forall k :: 1 <= k < |e| ==> e[k] != '.' && e[k] != '/')
  {
    var sep := LastIndexOf(path, '/');
    var dot := LastIndexOf(path, '.');
    if dot > sep && HasNonDot(path, sep + 1, dot) {
      var e := path[dot..];
      forall k | 1 <= k < |e| ensures e[k] != '.' && e[k] != '/' {
        assert e[k] == path[dot + k];
      }
    }
  }

  /** ASCII lower case: `.lower()` as far as the accepted extensions can tell. */
  function Lower(s: string): (r: string)
    ensures |r| == |s|
  {
    seq(|s|, i requires 0 <= i < |s| => if 'A' <= s[i] <= 'Z' then (s[i] - 'A' + 'a') as char else s[i])
  }

  /**
   * The value the `image_url` setter stores: an http(s) URL as it is, or, for
   * an existing file with a JPEG or PNG extension, a data URI around the
   * file's base64 text `encoded` (reading and encoding the file is I/O and is
   * given as an input, as is whether the path names a file).  It accepts
   * exactly the http(s) URLs and the existing files whose extension is .jpg,
   * .jpeg or .png in any letter case.
   */
  function ImageUrlValue(url: string, isFile: bool, encoded: string): (r: Result<string, ValueError>)
    ensures r.Ok? <==> IsHttpUrl(url) || (isFile && Lower(Extension(url)) in [".jpg", ".jpeg", ".png"])
    ensures IsHttpUrl(url) ==> r == Ok(url)
    ensures !IsHttpUrl(url) && !isFile ==> r == Err(InvalidImageUrl)
    ensures !IsHttpUrl(url) && isFile && Lower(Extension(url)) !in [".jpg", ".jpeg", ".png"] ==>
              r == Err(InvalidImageFormat)
    ensures r.Err? ==> r.error in {InvalidImageUrl, InvalidImageFormat}
  {
    if IsHttpUrl(url) then Ok(url)
    else if isFile then
      var ext := Lower(Extension(url));
      if ext !in [".jpg", ".jpeg", ".png"] then Err(InvalidImageFormat)
      else
        var mime := if ext in [".jpg", ".jpeg"] then "jpeg" else "png";
        Ok("data:image/" + mime + ";base64," + encoded)
    else Err(InvalidImageUrl)
  }

  /**
   * An accepted file becomes a data URI around its base64 text, typed JPEG
   * exactly for the .jpg and .jpeg extensions and PNG exactly for .png.
   */
  lemma ImageUrlDataUri(url: string, isFile: bool, encoded: string)
    requires !IsHttpUrl(url) && isFile && ImageUrlValue(url, isFile, encoded).Ok?
    ensures StartsWith(ImageUrlValue(url, isFile, encoded).value, "data:image/")
    ensures ImageUrlValue(url, isFile, encoded).value[11..] == "jpeg;base64," + encoded
            <==> Lower(Extension(url)) in [".jpg", ".jpeg"]
    ensures ImageUrlValue(url, isFile, encoded).value[11..] == "png;base64," + encoded
            <==> Lower(Extension(url)) == ".png"
  {
    var v := ImageUrlValue(url, isFile, encoded).value;
    var ext := Lower(Extension(url));
    var mime := if ext in [".jpg", ".jpeg"] then "jpeg" else "png";
    assert v == "data:image/" + (mime + ";base64," + encoded);
    assert |"data:image/"| == 11;
    assert v[11..] == mime + ";base64," + encoded;
    if mime == "jpeg" {
      assert v[11..] == "jpeg;base64," + encoded;
      assert v[11..][0] == 'j';
    } else {
      assert v[11..] == "png;base64," + encoded;
      assert v[11..][0] == 'p';
    }
  }

  /** A dot-file such as `.png` has no extension, so it is refused however it ends. */
  lemma HiddenFileHasNoExtension()
    ensures Extension(".png") == ""
    ensures ImageUrlValue(".png", true, "") == Err(InvalidImageFormat)
  {
    var s := ".png";
    assert s[0] == '.' && s[1] == 'p' && s[2] == 'n' && s[3] == 'g';
    assert LastIndexOf(s, '/') == -1;
    assert LastIndexOf(s, '.') == 0;
  }

  // ---------------------------------------------------------------------
  // The Prompt object

  class Prompt {
    var template: string
    var role: string
    var parameters: Dict<string, Option<string>>
    var imageUrl: Option<string>
    var ignoreMissing: bool

    /** The parameter names are exactly the placeholder names of the template. */
    ghost predicate Valid()
      reads this
    {
      parameters.Valid() && parameters.entries.Keys == PlaceholderNames(template)
    }

    /** `Prompt(template, role)`: every placeholder name declared and unset, missing values not ignored. */
    constructor (template: string, role: string)
      ensures Valid()
      ensures this.template == template && this.role == role
      ensures Enumerates(parameters.keys, PlaceholderNames(template))
      ensures forall name :: name in parameters.entries ==> parameters.entries[name] == None
      ensures imageUrl == None && !ignoreMissing
    {
      this.template := template;
      this.role := role;
      var params := ReadParams(template);
      parameters := params;
      imageUrl := None;
      ignoreMissing := false;
    }

    /**
     * `set`: an undeclared name raises and changes nothing; a declared one has
     * its value overwritten, and no key is added, removed or moved.
     */
    method Set(name: string, value: Option<string>) returns (r: Outcome<ValueError>)
      requires Valid()
      modifies this`parameters
      ensures Valid()
      ensures name in old(parameters.entries) ==>
                r == Pass && parameters.keys == old(parameters.keys)
                && parameters.entries == old(parameters.entries)[name := value]
      ensures name !in old(parameters.entries) ==>
                r == Fail(UnknownParameter(name)) && parameters == old(parameters)
    {
      if name !in parameters.entries {
        return Fail(UnknownParameter(name));
      }
      parameters := parameters.Put(name, value);
      r := Pass;
    }

    /**
     * `get`: the stored value of a declared name, `None` while it is unset
     * whatever the default; the default only for a name the template lacks.
     */
    function Get(name: string, default: Option<string>): (v: Option<string>)
      reads this
      requires Valid()
      ensures name in PlaceholderNames(template) ==> v == parameters.entries[name]
      ensures name !in PlaceholderNames(template) ==> v == default
    {
      if name in parameters.entries then parameters.entries[name] else default
    }

    /**
     * `build`: the values substituted in dict order into the accumulating
     * text.  It changes no field, so building twice gives the same result.
     */
    method Build() returns (r: Result<string, ValueError>)
      requires parameters.Valid()
      ensures r == Substitute(template, parameters.Items(), ignoreMissing)
      ensures parameters.keys == [] ==> r == Ok(template)
    {
      var items := parameters.Items();
      var prompt := template;
      var i := 0;
      while i < |items|
        invariant 0 <= i <= |items|
        invariant Substitute(template, items, ignoreMissing) == Substitute(prompt, items[i..], ignoreMissing)
      {
        var (name, value) := items[i];
        assert items[i..][1..] == items[i + 1..];
        if value == None {
          if !ignoreMissing {
            return Err(UnsetParameter(name));
          }
        } else {
          prompt := ReplaceAll(prompt, "$" + name, value.value);
        }
        i := i + 1;
      }
      r := Ok(prompt);
    }

    /** `str(prompt)` is `prompt.build()`. */
    method ToString() returns (r: Result<string, ValueError>)
      requires parameters.Valid()
      ensures r == Substitute(template, parameters.Items(), ignoreMissing)
    {
      r := Build();
    }

    /** The `image_url` setter: stores the URL or data URI, or raises and keeps the old value. */
    method SetImageUrl(url: string, isFile: bool, encoded: string) returns (r: Outcome<ValueError>)
      modifies this`imageUrl
      ensures ImageUrlValue(url, isFile, encoded).Ok? ==>
                r == Pass && imageUrl == Some(ImageUrlValue(url, isFile, encoded).value)
      ensures ImageUrlValue(url, isFile, encoded).Err? ==>
                r == Fail(ImageUrlValue(url, isFile, encoded).error) && imageUrl == old(imageUrl)
    {
      var v := ImageUrlValue(url, isFile, encoded);
      if v.Err? {
        return Fail(v.error);
      }
      imageUrl := Some(v.value);
      r := Pass;
    }

    /**
     * The loop of `Prompt.__init__` over the initial values: each goes through
     * `set` in dict order, so the first one whose name the template lacks
     * raises; otherwise every placeholder ends up holding its initial value.
     */
    method SetInitial(initial: Dict<string, Option<string>>) returns (r: Outcome<ValueError>)
      requires initial.Valid() && InitialProgress(parameters, template, initial, 0)
      modifies this`parameters
      ensures r.Fail? <==> exists k :: k in initial.entries && k !in PlaceholderNames(template)
      ensures r.Fail? ==> r.error.UnknownParameter? && r.error.name in initial.entries
                          && r.error.name !in PlaceholderNames(template)
                          && forall j :: 0 <= j < |initial.keys| && initial.keys[j] == r.error.name ==>
                               InitialKnown(template, initial, j)
      ensures r.Pass? ==> Valid() && Enumerates(parameters.keys, PlaceholderNames(template))
      ensures r.Pass? ==> forall name :: name in PlaceholderNames(template) ==>
                            parameters.entries[name]
                            == if name in initial.entries then initial.entries[name] else None
      ensures parameters.keys == old(parameters.keys)
    {
      var items := initial.Items();
      var i := 0;
      while i < |items|
        invariant 0 <= i <= |items|
        invariant parameters.keys == old(parameters.keys)
        invariant InitialProgress(parameters, template, initial, i)
      {
        var (name, value) := items[i];
        ghost var before := parameters;
        var o := Set(name, value);
        if o.Fail? {
          InitialUnknown(template, initial, i);
          return o;
        }
        InitialProgressStep(before, parameters, template, initial, i);
        i := i + 1;
      }
      InitialDone(parameters, template, initial);
      r := Pass;
    }
  }

  /** The parameters after the first `i` initial values went through `set`. */
  ghost predicate InitialApplied(params: Dict<string, Option<string>>, template: string,
                                 initial: Dict<string, Option<string>>, i: nat)
    requires initial.Valid() && i <= |initial.keys|
  {
    forall name :: name in PlaceholderNames(template) ==>
      name in params.entries
      && params.entries[name] == if name in initial.keys[..i] then initial.entries[name] else None
  }

  /** The names of the first `i` initial values are all placeholders of the template. */
  ghost predicate InitialKnown(template: string, initial: Dict<string, Option<string>>, i: nat)
    requires i <= |initial.keys|
  {
    forall j :: 0 <= j < i ==> initial.keys[j] in PlaceholderNames(template)
  }

  /**
   * The parameters of a prompt being constructed once the first `i` initial
   * values went through `set`: still the template's placeholders, in the same
   * order, and holding exactly those values.
   */
  ghost predicate InitialProgress(params: Dict<string, Option<string>>, template: string,
                                  initial: Dict<string, Option<string>>, i: nat)
    requires initial.Valid() && i <= |initial.keys|
  {
    && params.Valid() && params.entries.Keys == PlaceholderNames(template)
    && Enumerates(params.keys, PlaceholderNames(template))
    && InitialKnown(template, initial, i)
    && InitialApplied(params, template, initial, i)
  }

  /** Setting the next initial value, a declared name, keeps the construction in progress. */
  lemma InitialProgressStep(before: Dict<string, Option<string>>, after: Dict<string, Option<string>>,
                            template: string, initial: Dict<string, Option<string>>, i: nat)
    requires initial.Valid() && i < |initial.keys|
    requires InitialProgress(before, template, initial, i)
    requires initial.keys[i] in before.entries
    requires after.Valid() && after.keys == before.keys
    requires after.entries == before.entries[initial.keys[i] := initial.entries[initial.keys[i]]]
    ensures InitialProgress(after, template, initial, i + 1)
  {
    assert initial.keys[..i + 1] == initial.keys[..i] + [initial.keys[i]];
  }

  /** A name the template lacks among the first `i + 1` initial values, when the first `i` are known. */
  lemma InitialUnknown(template: string, initial: Dict<string, Option<string>>, i: nat)
    requires initial.Valid() && i < |initial.keys|
    requires initial.keys[i] !in PlaceholderNames(template)
    ensures exists k :: k in initial.entries && k !in PlaceholderNames(template)
  {
  }

  /**
   * Once every initial value went through `set`, every initial name is a
   * placeholder and every placeholder holds its initial value, or `None`.
   */
  lemma InitialDone(params: Dict<string, Option<string>>, template: string, initial: Dict<string, Option<string>>)
    requires initial.Valid()
    requires InitialProgress(params, template, initial, |initial.keys|)
    ensures forall k :: k in initial.entries ==> k in PlaceholderNames(template)
    ensures forall name :: name in PlaceholderNames(template) ==>
              params.entries[name] == if name in initial.entries then initial.entries[name] else None
  {
    forall k | k in initial.entries ensures k in PlaceholderNames(template) {
      var j :| 0 <= j < |initial.keys| && initial.keys[j] == k;
    }
    assert initial.keys[..|initial.keys|] == initial.keys;
  }

  /**
   * `Prompt(template, role, parameters)`: the initial values go through `set`
   * in dict order, so the first one whose name the template lacks raises.
   */
  method NewPrompt(template: string, role: string, initial: Dict<string, Option<string>>)
    returns (r: Result<Prompt, ValueError>)
    requires initial.Valid()
    ensures r.Err? <==> exists k :: k in initial.entries && k !in PlaceholderNames(template)
    ensures r.Err? ==> r.error.UnknownParameter? && r.error.name in initial.entries
                       && r.error.name !in PlaceholderNames(template)
                       && forall j :: 0 <= j < |initial.keys| && initial.keys[j] == r.error.name ==>
                            InitialKnown(template, initial, j)
    ensures r.Ok? ==> fresh(r.value) && r.value.Valid() && r.value.template == template
                      && r.value.role == role && !r.value.ignoreMissing && r.value.imageUrl == None
                      && Enumerates(r.value.parameters.keys, PlaceholderNames(template))
    ensures r.Ok? ==> forall name :: name in PlaceholderNames(template) ==>
                        r.value.parameters.entries[name]
                        == if name in initial.entries then initial.entries[name] else None
  {
    var p := new Prompt(template, role);
    assert InitialApplied(p.parameters, template, initial, 0);
    var o := p.SetInitial(initial);
    if o.Fail? {
      return Err(o.error);
    }
    r := Ok(p);
  }
}
