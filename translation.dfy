/**
 * The translation hook (use-translation.ts): `tStatic(key, options)` looks a
 * dotted key up in the locale table of the current language, falls back to
 * the English table when any segment is missing, falls back to the key
 * itself when English lacks it too, and substitutes `{name}` placeholders.
 *
 * A locale table is a tree whose inner nodes map segment names to children
 * and whose leaves are the translated texts.
 */
module Translation {
  import opened Text
  import opened Farm

  datatype Node = Leaf(text: string) | Branch(children: map<string, Node>)

  /** The table of one language: `translations[language]`. */
  function Table(en: Node, ml: Node, language: Language): Node {
    match language
    case En => en
    case Ml => ml
  }

  /**
   * `result?.[k]`: the child named `k`, or nothing when the current value is
   * missing, is a text, or has no such child.
   */
  function Child(n: Option<Node>, k: string): (r: Option<Node>)
    ensures r.Some? <==> n.Some? && n.value.Branch? && k in n.value.children
  {
    match n
    case None => None
    case Some(node) =>
      if node.Branch? && k in node.children then Some(node.children[k]) else None
  }

  /** Following the segments `keys` one after another from `root`. */
  function Lookup(root: Node, keys: seq<string>): Option<Node> {
    if keys == [] then Some(root)
    else Child(Lookup(root, keys[..|keys| - 1]), keys[|keys| - 1])
  }

  /** Once a segment is missing, every longer key is missing as well. */
  lemma {:induction false} LookupMissingStays(root: Node, keys: seq<string>, i: nat)
    requires i <= |keys|
    requires Lookup(root, keys[..i]).None?
    ensures Lookup(root, keys).None?
    decreases |keys| - i
  {
    if i < |keys| {
      assert keys[..i + 1][..i] == keys[..i];
      LookupMissingStays(root, keys, i + 1);
    } else {
      assert keys[..i] == keys;
    }
  }

  /** A key resolves from a branch by resolving its tail from the child its head names. */
  lemma {:induction false} LookupHead(root: Node, k: string, keys: seq<string>)
    ensures Lookup(root, [k] + keys) == LookupFrom(Child(Some(root), k), keys)
    decreases |keys|
  {
    if keys != [] {
      var ks := [k] + keys;
      assert ks[..|ks| - 1] == [k] + keys[..|keys| - 1];
      LookupHead(root, k, keys[..|keys| - 1]);
    } else {
      assert [k] + keys == [k];
      assert ([k] + keys)[..0] == [];
    }
  }

  /** Lookup from a node that may itself be missing. */
  function LookupFrom(n: Option<Node>, keys: seq<string>): Option<Node> {
    match n
    case None => None
    case Some(node) => Lookup(node, keys)
  }

  /** The value found for the key: current language first, then English. */
  function Resolve(cur: Node, en: Node, keys: seq<string>): Option<Node> {
    if Lookup(cur, keys).Some? then Lookup(cur, keys) else Lookup(en, keys)
  }

  function Placeholder(name: string): string {
    "{" + name + "}"
  }

  /**
   * The `forEach` over the options: each option, in insertion order, replaces
   * the first occurrence of its placeholder.
   */
  function Substitute(s: string, options: seq<(string, string)>): string {
    if options == [] then s
    else
      var last := options[|options| - 1];
      ReplaceFirst(Substitute(s, options[..|options| - 1]), Placeholder(last.0), last.1)
  }

  /** Applying a list of options is applying its parts one after the other. */
  lemma {:induction false} SubstituteAppend(s: string, a: seq<(string, string)>, b: seq<(string, string)>)
    ensures Substitute(s, a + b) == Substitute(Substitute(s, a), b)
    decreases |b|
  {
    if b == [] {
      assert a + b == a;
    } else {
      var ab := a + b;
      assert ab[..|ab| - 1] == a + b[..|b| - 1];
      assert ab[|ab| - 1] == b[|b| - 1];
      SubstituteAppend(s, a, b[..|b| - 1]);
    }
  }

  /** `tStatic` as a function of the two tables, the language, the key and the options. */
  function Translate(en: Node, ml: Node, language: Language, key: string,
                     options: seq<(string, string)>): Node
  {
    match Resolve(Table(en, ml, language), en, Split(key, '.'))
    case None => Leaf(key)
    case Some(n) =>
      var v := if n == Leaf("") then Leaf(key) else n;
      if v.Leaf? then Leaf(Substitute(v.text, options)) else v
  }

  /** The fallback loop: the key's segments walked again from the English root. */
  method WalkEnglish(en: Node, keys: seq<string>) returns (r: Option<Node>)
    ensures r == Lookup(en, keys)
  {
    r := Some(en);
    var j := 0;
    while j < |keys|
      invariant 0 <= j <= |keys|
      invariant r == Lookup(en, keys[..j]) && r.Some?
    {
      r := Child(r, keys[j]);
      assert keys[..j + 1][..j] == keys[..j];
      if r.None? {
        LookupMissingStays(en, keys, j + 1);
        return;
      }
      j := j + 1;
    }
    assert keys[..j] == keys;
  }

  /** The substitution loop: each option in turn replaces its placeholder's first occurrence. */
  method ApplyOptions(text: string, options: seq<(string, string)>) returns (s: string)
    ensures s == Substitute(text, options)
  {
    s := text;
    var k := 0;
    while k < |options|
      invariant 0 <= k <= |options|
      invariant s == Substitute(text, options[..k])
    {
      assert options[..k + 1][..k] == options[..k];
      s := ReplaceFirst(s, Placeholder(options[k].0), options[k].1);
      k := k + 1;
    }
    assert options[..k] == options;
  }

  /** The hook's lookup loop, falling back to English and then filling in the options. */
  method TStatic(en: Node, ml: Node, language: Language, key: string, options: seq<(string, string)>)
    returns (r: Node)
    ensures r == Translate(en, ml, language, key, options)
  {
    var cur := Table(en, ml, language);
    var keys := Split(key, '.');
    var result: Option<Node> := Some(cur);
    var switched := false;
    var i := 0;
    while i < |keys|
      invariant 0 <= i <= |keys|
      invariant result == Lookup(cur, keys[..i]) && result.Some?
    {
      result := Child(result, keys[i]);
      assert keys[..i + 1][..i] == keys[..i];
      if result.None? {
        LookupMissingStays(cur, keys, i + 1);
        // Fall back to English, starting again from its root.
        var fallback := WalkEnglish(en, keys);
        if fallback.None? {
          return Leaf(key);
        }
        result := fallback;
        switched := true;
        break;
      }
      i := i + 1;
    }
    if !switched {
      assert keys[..i] == keys;
    }
    assert Resolve(cur, en, keys) == result;
    var value := result.value;
    if value == Leaf("") {
      value := Leaf(key);
    }
    if value.Leaf? {
      var s := ApplyOptions(value.text, options);
      value := Leaf(s);
    }
    r := value;
  }

  // ---------------------------------------------------------------------------
  // What tStatic promises
  // ---------------------------------------------------------------------------

  /** A key found in the current language's table gives that text, placeholders filled in. */
  lemma FoundInCurrent(en: Node, ml: Node, language: Language, key: string,
                       options: seq<(string, string)>, s: string)
    requires Lookup(Table(en, ml, language), Split(key, '.')) == Some(Leaf(s))
    requires s != ""
    ensures Translate(en, ml, language, key, options) == Leaf(Substitute(s, options))
  {
  }

  /**
   * A key missing anywhere along the current language's path is looked up
   * again from the English root: the outcome is the English outcome.
   */
  lemma MissingFallsBackToEnglish(en: Node, ml: Node, language: Language, key: string,
                                  options: seq<(string, string)>)
    requires Lookup(Table(en, ml, language), Split(key, '.')).None?
    ensures Translate(en, ml, language, key, options) == Translate(en, ml, En, key, options)
  {
  }

  /** A key missing from both tables comes back unchanged, without substitution. */
  lemma MissingEverywhere(en: Node, ml: Node, language: Language, key: string,
                          options: seq<(string, string)>)
    requires Lookup(Table(en, ml, language), Split(key, '.')).None?
    requires Lookup(en, Split(key, '.')).None?
    ensures Translate(en, ml, language, key, options) == Leaf(key)
  {
  }

  /** An empty translation is falsy: the key is used instead, with substitution. */
  lemma EmptyTextGivesKey(en: Node, ml: Node, language: Language, key: string,
                          options: seq<(string, string)>)
    requires Resolve(Table(en, ml, language), en, Split(key, '.')) == Some(Leaf(""))
    ensures Translate(en, ml, language, key, options) == Leaf(Substitute(key, options))
  {
  }

  /** A key naming a whole sub-table returns that sub-table as it is. */
  lemma BranchReturnedAsIs(en: Node, ml: Node, language: Language, key: string,
                           options: seq<(string, string)>, n: Node)
    requires Resolve(Table(en, ml, language), en, Split(key, '.')) == Some(n)
    requires n.Branch?
    ensures Translate(en, ml, language, key, options) == n
  {
  }

  /** Without options the text found is returned as it is. */
  lemma NoOptionsNoChange(en: Node, ml: Node, language: Language, key: string, s: string)
    requires Resolve(Table(en, ml, language), en, Split(key, '.')) == Some(Leaf(s))
    requires s != ""
    ensures Translate(en, ml, language, key, []) == Leaf(s)
  {
  }

  /** A single option is a single first-occurrence replacement. */
  lemma SubstituteOne(s: string, name: string, value: string)
    ensures Substitute(s, [(name, value)]) == ReplaceFirst(s, Placeholder(name), value)
  {
    assert [(name, value)][..0] == [];
  }

  /**
   * One option replaces only the first occurrence of its placeholder: a later
   * occurrence survives, shifted by the difference in length.
   */
  lemma OnlyFirstOccurrence(s: string, name: string, value: string, i: nat, j: nat)
    requires OccursAt(s, Placeholder(name), i)
    requires forall m :: 0 <= m < i ==> !OccursAt(s, Placeholder(name), m)
    requires OccursAt(s, Placeholder(name), j) && j >= i + |Placeholder(name)|
    ensures Substitute(s, [(name, value)]) == s[..i] + value + s[i + |Placeholder(name)|..]
    ensures OccursAt(Substitute(s, [(name, value)]), Placeholder(name), j - |Placeholder(name)| + |value|)
  {
    SubstituteOne(s, name, value);
    ReplaceFirstAt(s, Placeholder(name), value, i);
    ReplacedKeepsLater(s, Placeholder(name), value, i, j);
  }
}
