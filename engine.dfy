/** src/templates/templateEngine.ts: the registry-backed dispatcher and the three string
    helpers exported beside it. */
module Engine {
  import opened Wrappers
  import opened Strings
  import opened Types

  /** One keyed entry of a template registry; the registry keeps insertion order. */
  datatype RegistryEntry = RegistryEntry(key: UIType, entry: TemplateEntry)

  type TemplateRegistry = seq<RegistryEntry>

  /** `Object.keys(registry)`: the keys in insertion order. */
  function Keys(registry: TemplateRegistry): (r: seq<UIType>)
    ensures |r| == |registry|
    ensures forall i :: 0 <= i < |registry| ==> r[i] == registry[i].key
  {
    if |registry| == 0 then [] else [registry[0].key] + Keys(registry[1..])
  }

  /** An object literal cannot hold a key twice. */
  predicate UniqueKeys(registry: TemplateRegistry)
  {
    forall i, j :: 0 <= i < j < |registry| ==> registry[i].key != registry[j].key
  }

  /** Position of key `t` in the registry, or `|registry|` when it is absent. */
  function IndexOf(registry: TemplateRegistry, t: UIType): (i: nat)
    ensures i <= |registry|
    ensures i < |registry| ==> registry[i].key == t
    ensures forall j :: 0 <= j < i ==> registry[j].key != t
  {
    if |registry| == 0 then 0
    else if registry[0].key == t then 0
    else 1 + IndexOf(registry[1..], t)
  }

  /** `registry[t]`. */
  function Lookup(registry: TemplateRegistry, t: UIType): (r: Option<TemplateEntry>)
    ensures r.Some? <==> t in Keys(registry)
    ensures r.Some? ==> r.value == registry[IndexOf(registry, t)].entry
  {
    var i := IndexOf(registry, t);
    if i < |registry| then Some(registry[i].entry) else None
  }

  /** With unique keys, the entry found for a key is the one stored under it. */
  lemma LookupUnique(registry: TemplateRegistry, i: nat)
    requires UniqueKeys(registry) && i < |registry|
    ensures Lookup(registry, registry[i].key) == Some(registry[i].entry)
  {
  }

  /** The configuration the `forEach` in getDefaultConfig builds: each option in turn writes
      its default under its id. */
  function Defaults(options: seq<ConfigOption>): TemplateConfig
  {
    if |options| == 0 then map[]
    else Defaults(options[..|options| - 1])[options[|options| - 1].id := options[|options| - 1].defaultValue]
  }

  /** The keys of the defaults are exactly the declared option ids. */
  lemma {:induction false} DefaultsKeys(options: seq<ConfigOption>)
    ensures forall k :: k in Defaults(options) <==> exists i :: 0 <= i < |options| && options[i].id == k
  {
    if |options| > 0 {
      var prefix := options[..|options| - 1];
      DefaultsKeys(prefix);
      assert Defaults(options) == Defaults(prefix)[options[|options| - 1].id := options[|options| - 1].defaultValue];
      forall k | k in Defaults(options) ensures exists i :: 0 <= i < |options| && options[i].id == k {
        if k != options[|options| - 1].id {
          var i :| 0 <= i < |prefix| && prefix[i].id == k;
          assert options[i] == prefix[i];
        }
      }
      forall k | exists i :: 0 <= i < |options| && options[i].id == k ensures k in Defaults(options) {
        var i :| 0 <= i < |options| && options[i].id == k;
        if i < |options| - 1 {
          assert prefix[i] == options[i];
        }
      }
    }
  }

  /** Each id holds the default of the LAST option declaring it. */
  lemma {:induction false} DefaultsLastWins(options: seq<ConfigOption>, i: nat)
    requires i < |options|
    requires forall j :: i < j < |options| ==> options[j].id != options[i].id
    ensures options[i].id in Defaults(options)
    ensures Defaults(options)[options[i].id] == options[i].defaultValue
  {
    var n := |options|;
    if i < n - 1 {
      var prefix := options[..n - 1];
      assert prefix[i] == options[i];
      assert forall j :: i < j < |prefix| ==> prefix[j] == options[j];
      DefaultsLastWins(prefix, i);
    }
  }

  /** The registry's templates and forms, behind the five operations of the engine. */
  class TemplateEngine {
    const registry: TemplateRegistry

    ghost predicate Valid()
    {
      UniqueKeys(registry)
    }

    constructor (registry: TemplateRegistry)
      requires UniqueKeys(registry)
      ensures Valid() && this.registry == registry
    {
      this.registry := registry;
    }

    /** `generate`: the registered template's output, or UnknownUIType. */
    function Generate(t: UIType, config: TemplateConfig, techStack: TechStack): (r: Result<string, PromptError>)
      ensures t !in Keys(registry) ==> r == Err(UnknownUIType(t))
      ensures forall i :: 0 <= i < |registry| && registry[i].key == t && Valid() ==>
                r == registry[i].entry.template(config, techStack)
    {
      match Lookup(registry, t)
      case None => Err(UnknownUIType(t))
      case Some(entry) =>
        assert Valid() ==> forall i :: 0 <= i < |registry| && registry[i].key == t ==> IndexOf(registry, t) == i by {
          if Valid() {
            forall i | 0 <= i < |registry| && registry[i].key == t ensures IndexOf(registry, t) == i {
              LookupUnique(registry, i);
            }
          }
        }
        entry.template(config, techStack)
    }

    /** `getConfig`: the registered form unchanged, or UnknownUIType. */
    function GetConfig(t: UIType): (r: Result<UITypeConfig, PromptError>)
      ensures t !in Keys(registry) ==> r == Err(UnknownUIType(t))
      ensures forall i :: 0 <= i < |registry| && registry[i].key == t && Valid() ==>
                r == Ok(registry[i].entry.config)
    {
      match Lookup(registry, t)
      case None => Err(UnknownUIType(t))
      case Some(entry) =>
        assert Valid() ==> forall i :: 0 <= i < |registry| && registry[i].key == t ==> IndexOf(registry, t) == i by {
          if Valid() {
            forall i | 0 <= i < |registry| && registry[i].key == t ensures IndexOf(registry, t) == i {
              LookupUnique(registry, i);
            }
          }
        }
        Ok(entry.config)
    }

    /** `getAvailableTypes`: the registry keys in insertion order. */
    function GetAvailableTypes(): (r: seq<UIType>)
      ensures |r| == |registry|
      ensures forall i :: 0 <= i < |registry| ==> r[i] == registry[i].key
    {
      Keys(registry)
    }

    /** What getDefaultConfig returns, as a value. */
    function DefaultConfig(t: UIType): Result<TemplateConfig, PromptError>
    {
      match GetConfig(t)
      case Err(e) => Err(e)
      case Ok(form) => Ok(Defaults(form.configOptions))
    }

    /** A registered type has defaults. */
    lemma RegisteredDefaults(t: UIType)
      requires t in Keys(registry)
      ensures DefaultConfig(t).Ok?
    {
      assert Lookup(registry, t).Some?;
    }

    /** What validateConfig returns: presence of every declared option id, nothing about the values. */
    predicate HasAllOptions(form: UITypeConfig, config: TemplateConfig)
    {
      forall i :: 0 <= i < |form.configOptions| ==> form.configOptions[i].id in config
    }

    /** `getDefaultConfig`: a fresh configuration with one entry per option id. */
    method GetDefaultConfig(t: UIType) returns (r: Result<TemplateConfig, PromptError>)
      ensures r == DefaultConfig(t)
    {
      var form := GetConfig(t);
      if form.Err? {
        return Err(form.error);
      }
      var options := form.value.configOptions;
      var defaults: TemplateConfig := map[];
      for i := 0 to |options|
        invariant defaults == Defaults(options[..i])
      {
        assert options[..i + 1][..i] == options[..i];
        defaults := defaults[options[i].id := options[i].defaultValue];
      }
      assert options[..|options|] == options;
      return Ok(defaults);
    }

    /** `validateConfig`: true iff every declared option id is a key of `config`; stops at the
        first missing id. */
    method ValidateConfig(t: UIType, config: TemplateConfig) returns (r: Result<bool, PromptError>)
      ensures t !in Keys(registry) ==> r == Err(UnknownUIType(t))
      ensures GetConfig(t).Ok? ==> r == Ok(HasAllOptions(GetConfig(t).value, config))
    {
      var form := GetConfig(t);
      if form.Err? {
        return Err(form.error);
      }
      var options := form.value.configOptions;
      for i := 0 to |options|
        invariant forall j :: 0 <= j < i ==> options[j].id in config
      {
        if options[i].id !in config {
          return Ok(false);
        }
      }
      return Ok(true);
    }

    /** The derived defaults always pass validation. */
    lemma DefaultConfigValidates(t: UIType)
      requires DefaultConfig(t).Ok?
      ensures HasAllOptions(GetConfig(t).value, DefaultConfig(t).value)
    {
      DefaultsKeys(GetConfig(t).value.configOptions);
    }
  }

  /** `formatList(items, conjunction = 'and')`. */
  function FormatList(items: seq<string>, conjunction: string := "and"): (r: string)
    ensures |items| == 0 ==> r == ""
    ensures |items| == 1 ==> r == items[0]
    ensures |items| == 2 ==> r == items[0] + " " + conjunction + " " + items[1]
  {
    if |items| == 0 then ""
    else if |items| == 1 then items[0]
    else if |items| == 2 then items[0] + " " + conjunction + " " + items[1]
    else Join(items[..|items| - 1], ", ") + ", " + conjunction + " " + items[|items| - 1]
  }

  /** For three or more items, the list is the items joined by ", " with the conjunction
      before the last one. */
  lemma FormatListShape(items: seq<string>, conjunction: string)
    requires |items| >= 3
    ensures FormatList(items, conjunction)
         == Join(items[..|items| - 1] + [conjunction + " " + items[|items| - 1]], ", ")
  {
    var n := |items|;
    JoinSnoc(items[..n - 1], conjunction + " " + items[n - 1], ", ");
  }

  /** Every item is mentioned in the formatted list. */
  lemma FormatListMentionsAll(items: seq<string>, conjunction: string)
    ensures forall k :: 0 <= k < |items| ==> Contains(FormatList(items, conjunction), items[k])
  {
    var n := |items|;
    var r := FormatList(items, conjunction);
    if n == 2 {
      ContainsPrefix(items[0], " " + conjunction + " " + items[1], items[0]);
      assert r == items[0] + (" " + conjunction + " " + items[1]);
      assert Contains(items[1], items[1]);
      ContainsInSuffix(items[0] + " " + conjunction + " ", items[1], items[1]);
      assert r == items[0] + " " + conjunction + " " + items[1];
    } else if n >= 3 {
      var parts := items[..n - 1] + [conjunction + " " + items[n - 1]];
      FormatListShape(items, conjunction);
      forall k | 0 <= k < n ensures Contains(r, items[k]) {
        JoinContainsPart(parts, ", ", k);
        if k == n - 1 {
          assert Contains(items[k], items[k]);
          ContainsInSuffix(conjunction + " ", items[k], items[k]);
          ContainsTrans(r, conjunction + " " + items[k], items[k]);
        }
      }
    } else if n == 1 {
      assert Contains(items[0], items[0]);
    }
  }

  /** Adding one item to a list of at least two keeps the earlier items and their commas. */
  lemma FormatListSnoc(items: seq<string>, x: string, conjunction: string)
    requires |items| >= 2
    ensures FormatList(items + [x], conjunction) == Join(items, ", ") + ", " + conjunction + " " + x
  {
    var all := items + [x];
    assert |all| >= 3;
    assert all[..|all| - 1] == items;
    assert all[|all| - 1] == x;
  }

  /** `capitalize`: first character upper-cased, the rest kept. */
  function Capitalize(s: string): (r: string)
    ensures |r| == |s|
    ensures |s| > 0 ==> r[0] == UpperChar(s[0]) && r[1..] == s[1..]
  {
    if |s| == 0 then "" else [UpperChar(s[0])] + s[1..]
  }

  lemma CapitalizeIdempotent(s: string)
    ensures Capitalize(Capitalize(s)) == Capitalize(s)
  {
  }

  /** Number of upper-case letters in `s`. */
  function UpperCount(s: string): nat
  {
    if |s| == 0 then 0 else (if IsUpper(s[0]) then 1 else 0) + UpperCount(s[1..])
  }

  /** `str.replace(/([A-Z])/g, ' $1')`: one space added per upper-case letter; where it goes
      is stated by `SpaceBeforeEachUpper`. */
  function SpaceBeforeUpper(s: string): (r: string)
    ensures |r| == |s| + UpperCount(s)
  {
    if |s| == 0 then ""
    else (if IsUpper(s[0]) then [' ', s[0]] else [s[0]]) + SpaceBeforeUpper(s[1..])
  }

  /** Every upper-case letter of the replaced string has a space right before it. */
  lemma {:induction false} SpaceBeforeEachUpper(s: string)
    ensures forall i :: 0 <= i < |SpaceBeforeUpper(s)| && IsUpper(SpaceBeforeUpper(s)[i]) ==>
              0 < i && SpaceBeforeUpper(s)[i - 1] == ' '
  {
    if |s| > 0 {
      SpaceBeforeEachUpper(s[1..]);
    }
  }

  /** `toSentenceCase`. The `/^./` replacement upper-cases the first character; the regex
      skips a leading line terminator, which upper-casing leaves alone anyway. */
  function ToSentenceCase(s: string): (r: string)
    ensures r == "" || (!IsJsWhitespace(r[0]) && !IsJsWhitespace(r[|r| - 1]))
  {
    Trim(Capitalize(SpaceBeforeUpper(s)))
  }

  function RemoveSpaces(s: string): string
  {
    if |s| == 0 then "" else (if s[0] == ' ' then "" else [s[0]]) + RemoveSpaces(s[1..])
  }

  predicate NoWhitespace(s: string)
  {
    forall i :: 0 <= i < |s| ==> !IsJsWhitespace(s[i])
  }

  lemma {:induction false} RemoveSpacesConcat(a: string, b: string)
    ensures RemoveSpaces(a + b) == RemoveSpaces(a) + RemoveSpaces(b)
  {
    if |a| > 0 {
      assert (a + b)[1..] == a[1..] + b;
      RemoveSpacesConcat(a[1..], b);
    } else {
      assert a + b == b;
    }
  }

  /** Dropping the inserted spaces gives back a string without spaces. */
  lemma {:induction false} RemoveInsertedSpaces(s: string)
    requires NoWhitespace(s)
    ensures RemoveSpaces(SpaceBeforeUpper(s)) == s
  {
    if |s| > 0 {
      var head := if IsUpper(s[0]) then [' ', s[0]] else [s[0]];
      assert !IsJsWhitespace(s[0]);
      assert SpaceBeforeUpper(s) == head + SpaceBeforeUpper(s[1..]);
      RemoveSpacesConcat(head, SpaceBeforeUpper(s[1..]));
      assert RemoveSpaces(head) == [s[0]] by {
        if IsUpper(s[0]) {
          assert head[1..] == [s[0]];
        }
      }
      assert NoWhitespace(s[1..]) by {
        forall i | 0 <= i < |s[1..]| ensures !IsJsWhitespace(s[1..][i]) {
          assert s[1..][i] == s[i + 1];
        }
      }
      RemoveInsertedSpaces(s[1..]);
      assert s == [s[0]] + s[1..];
    }
  }

  /** The spaced string ends with the original's last character. */
  lemma {:induction false} SpaceBeforeUpperLast(s: string)
    requires |s| > 0
    ensures |SpaceBeforeUpper(s)| > 0
    ensures SpaceBeforeUpper(s)[|SpaceBeforeUpper(s)| - 1] == s[|s| - 1]
  {
    if |s| > 1 {
      SpaceBeforeUpperLast(s[1..]);
    }
  }

  lemma TrimKeeps(x: string)
    requires |x| > 0 && !IsJsWhitespace(x[0]) && !IsJsWhitespace(x[|x| - 1])
    ensures Trim(x) == x
  {
    assert LeadingWhitespace(x) == 0;
    assert x[0..] == x;
    assert TrailingWhitespace(x) == 0;
  }

  lemma TrimDropsLeadingSpace(x: string)
    requires |x| > 1 && x[0] == ' ' && !IsJsWhitespace(x[1]) && !IsJsWhitespace(x[|x| - 1])
    ensures Trim(x) == x[1..]
  {
    assert LeadingWhitespace(x[1..]) == 0;
    assert LeadingWhitespace(x) == 1;
    var front := x[1..];
    assert front[|front| - 1] == x[|x| - 1];
    assert TrailingWhitespace(front) == 0;
  }

  /** Facts about an identifier without whitespace that both branches below need. */
  lemma NoWhitespaceParts(s: string)
    requires |s| > 0 && NoWhitespace(s)
    ensures !IsJsWhitespace(s[0]) && !IsJsWhitespace(s[|s| - 1]) && NoWhitespace(s[1..])
    ensures RemoveSpaces(SpaceBeforeUpper(s[1..])) == s[1..]
    ensures |SpaceBeforeUpper(s)| > 0 && SpaceBeforeUpper(s)[|SpaceBeforeUpper(s)| - 1] == s[|s| - 1]
  {
    assert NoWhitespace(s[1..]) by {
      forall i | 0 <= i < |s[1..]| ensures !IsJsWhitespace(s[1..][i]) {
        assert s[1..][i] == s[i + 1];
      }
    }
    RemoveInsertedSpaces(s[1..]);
    SpaceBeforeUpperLast(s);
  }

  /** Capitalizing leaves a string that starts with a space alone. */
  lemma CapitalizeSpaceLed(y: string)
    requires |y| > 0 && y[0] == ' '
    ensures Capitalize(y) == y
  {
    assert UpperChar(' ') == ' ';
    assert [y[0]] + y[1..] == y;
  }

  /** An upper-case first letter gains a leading space, which trim removes again. */
  lemma SentenceCaseUpperSpaced(s: string)
    requires |s| > 0 && NoWhitespace(s) && IsUpper(s[0])
    ensures ToSentenceCase(s) == [s[0]] + SpaceBeforeUpper(s[1..])
  {
    NoWhitespaceParts(s);
    var y := SpaceBeforeUpper(s);
    assert y == [' ', s[0]] + SpaceBeforeUpper(s[1..]);
    assert y[1..] == [s[0]] + SpaceBeforeUpper(s[1..]);
    CapitalizeSpaceLed(y);
    TrimDropsLeadingSpace(y);
  }

  /** Otherwise the first letter is upper-cased in place and trim removes nothing. */
  lemma SentenceCaseOtherSpaced(s: string)
    requires |s| > 0 && NoWhitespace(s) && !IsUpper(s[0])
    ensures ToSentenceCase(s) == [UpperChar(s[0])] + SpaceBeforeUpper(s[1..])
  {
    NoWhitespaceParts(s);
    var rest := SpaceBeforeUpper(s[1..]);
    var y := SpaceBeforeUpper(s);
    var x := Capitalize(y);
    assert y == [s[0]] + rest;
    assert x == [UpperChar(s[0])] + rest;
    assert !IsJsWhitespace(x[0]);
    assert x[|x| - 1] == y[|y| - 1] || |x| == 1;
    TrimKeeps(x);
  }

  /** For a whitespace-free identifier, the sentence case is its first letter upper-cased
      followed by the rest with a space before every upper-case letter. */
  lemma SentenceCaseSpaced(s: string)
    requires |s| > 0 && NoWhitespace(s)
    ensures ToSentenceCase(s) == [UpperChar(s[0])] + SpaceBeforeUpper(s[1..])
  {
    if IsUpper(s[0]) {
      SentenceCaseUpperSpaced(s);
      assert UpperChar(s[0]) == s[0];
    } else {
      SentenceCaseOtherSpaced(s);
    }
  }

  /** For a camelCase identifier, toSentenceCase only inserts spaces between
      words and capitalizes the first letter: removing the spaces gives `capitalize(s)`. */
  lemma SentenceCaseOnlyAddsSpaces(s: string)
    requires |s| > 0 && NoWhitespace(s)
    ensures RemoveSpaces(ToSentenceCase(s)) == Capitalize(s)
  {
    SentenceCaseSpaced(s);
    NoWhitespaceParts(s);
    var rest := SpaceBeforeUpper(s[1..]);
    var c := UpperChar(s[0]);
    assert c != ' ';
    RemoveSpacesConcat([c], rest);
    assert RemoveSpaces([c]) == [c];
    assert Capitalize(s) == [c] + s[1..];
  }
}
