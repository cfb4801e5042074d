/** The part of Python's `configparser` that the MorphRDB adapter relies on: one section held as an
    ordered table of options, and `ConfigParser.write` with `space_around_delimiters=False`. */
module IniConfig {
  import opened Wrappers
  import opened Text

  type Entry = (string, string)

  /** The options of one section, in insertion order. */
  type Table = seq<Entry>

  function Keys(t: Table): seq<string> {
    seq(|t|, i requires 0 <= i < |t| => t[i].0)
  }

  lemma KeysConcat(t: Table, u: Table)
    ensures Keys(t + u) == Keys(t) + Keys(u)
  {
  }

  predicate Distinct(keys: seq<string>) {
    forall i, j :: 0 <= i < j < |keys| ==> keys[i] != keys[j]
  }

  /** `section.get(key)`. */
  function Lookup(t: Table, key: string): Option<string> {
    if t == [] then None
    else if t[0].0 == key then Some(t[0].1)
    else Lookup(t[1..], key)
  }

  /** In a section whose keys are distinct, every option is found under its own key. */
  lemma {:induction false} LookupAt(t: Table, i: nat)
    requires Distinct(Keys(t)) && i < |t|
    ensures Lookup(t, t[i].0) == Some(t[i].1)
  {
    if i > 0 {
      assert Keys(t)[0] != Keys(t)[i];
      assert Keys(t[1..]) == Keys(t)[1..];
      LookupAt(t[1..], i - 1);
    }
  }

  /** `section[key] = value`: an option already present keeps its place and takes the new value,
      a new one goes last. */
  function Set(t: Table, key: string, value: string): (r: Table)
    ensures Lookup(r, key) == Some(value)
    ensures forall k :: k != key ==> Lookup(r, k) == Lookup(t, k)
    ensures Lookup(t, key) == None ==> r == t + [(key, value)]
    ensures Lookup(t, key) != None ==> |r| == |t| && forall i :: 0 <= i < |t| ==> r[i].0 == t[i].0
  {
    if t == [] then [(key, value)]
    else if t[0].0 == key then [(key, value)] + t[1..]
    else [t[0]] + Set(t[1..], key, value)
  }

  lemma {:induction false} LookupAbsent(t: Table, key: string)
    requires key !in Keys(t)
    ensures Lookup(t, key) == None
  {
    if t != [] {
      assert Keys(t)[0] == t[0].0;
      assert forall i :: 0 <= i < |t| - 1 ==> Keys(t[1..])[i] == Keys(t)[i + 1];
      LookupAbsent(t[1..], key);
    }
  }

  /** Setting an option the section does not have yet appends it. */
  lemma SetAbsent(t: Table, key: string, value: string)
    requires key !in Keys(t)
    ensures Set(t, key, value) == t + [(key, value)]
    ensures Keys(Set(t, key, value)) == Keys(t) + [key]
  {
    LookupAbsent(t, key);
  }

  /** Setting the options of `entries` one after the other, in their order. */
  function SetAll(t: Table, entries: Table): Table
    decreases |entries|
  {
    if entries == [] then t else SetAll(Set(t, entries[0].0, entries[0].1), entries[1..])
  }

  /** Setting options whose keys are new and distinct appends them in the order they were set. */
  lemma {:induction false} SetAllFresh(t: Table, entries: Table)
    requires Distinct(Keys(t + entries))
    ensures SetAll(t, entries) == t + entries
    decreases |entries|
  {
    if entries != [] {
      var e := entries[0];
      assert Keys(t + entries)[|t|] == e.0;
      assert e.0 !in Keys(t) by {
        forall i | 0 <= i < |t| ensures Keys(t)[i] != e.0 {
          assert Keys(t)[i] == Keys(t + entries)[i];
        }
      }
      SetAbsent(t, e.0, e.1);
      assert t + entries == (t + [e]) + entries[1..];
      SetAllFresh(t + [e], entries[1..]);
    }
  }

  /** How `write` puts one option: `key=value`, each further line of a value indented by a tab. */
  function OptionLine(e: Entry): string {
    e.0 + "=" + ReplaceAll(e.1, "\n", "\n\t") + "\n"
  }

  function OptionLines(t: Table): string {
    if t == [] then "" else OptionLine(t[0]) + OptionLines(t[1..])
  }

  /** `ConfigParser.write` of a parser with no defaults and the single section `name`. */
  function WriteSection(name: string, t: Table): string {
    "[" + name + "]\n" + OptionLines(t) + "\n"
  }

  /** Keys that a `key=value` line keeps apart from their values. */
  predicate PlainKeys(keys: seq<string>) {
    forall i :: 0 <= i < |keys| ==> '=' !in keys[i] && '\n' !in keys[i]
  }

  predicate SingleLineValues(t: Table) {
    forall i :: 0 <= i < |t| ==> '\n' !in t[i].1
  }

  /** A table that a flat `key=value` file holds unambiguously. */
  predicate FlatSafe(t: Table) {
    PlainKeys(Keys(t)) && SingleLineValues(t)
  }

  lemma FlatSafeConcat(t: Table, u: Table)
    requires FlatSafe(t) && FlatSafe(u)
    ensures FlatSafe(t + u)
  {
    KeysConcat(t, u);
    assert forall i :: |t| <= i < |t + u| ==> (t + u)[i] == u[i - |t|];
  }

  /** Reads a flat `key=value` file: blank lines are skipped, and each other line is cut at its first '='. */
  function ReadFlat(s: string): Table
    decreases |s|
  {
    if s == [] then []
    else
      var n := FirstIndex(s, '\n');
      var line := s[..n];
      var rest := if n < |s| then s[n + 1..] else [];
      if line == [] then ReadFlat(rest)
      else
        var e := FirstIndex(line, '=');
        [(line[..e], if e < |line| then line[e + 1..] else "")] + ReadFlat(rest)
  }

  lemma NoNewlineNoIndent(v: string)
    requires '\n' !in v
    ensures ReplaceAll(v, "\n", "\n\t") == v
  {
    NoMatchWithoutFirst(v, "\n", |v|);
    assert v[..|v|] == v;
    ReplaceAbsent(v, "\n", "\n\t");
  }

  /** One `key=value` line is read as that option. */
  lemma ReadFlatLine(k: string, v: string, rest: string)
    requires '=' !in k && '\n' !in k && '\n' !in v
    ensures ReadFlat(k + "=" + v + "\n" + rest) == [(k, v)] + ReadFlat(rest)
  {
    var text := k + "=" + v;
    var s := text + "\n" + rest;
    assert text == k + ['='] + v;
    assert '\n' !in text;
    FirstIndexAfter(text, '\n', rest);
    assert s == text + ['\n'] + rest;
    assert s[..|text|] == text;
    assert s[|text| + 1..] == rest;
    FirstIndexAfter(k, '=', v);
    assert text[..|k|] == k && text[|k| + 1..] == v;
  }

  /** The options of a section, written without its header, read back as the same table. */
  lemma {:induction false} ReadFlatOfOptionLines(t: Table)
    requires FlatSafe(t)
    ensures ReadFlat(OptionLines(t) + "\n") == t
  {
    if t == [] {
      assert ReadFlat("\n") == ReadFlat("");
    } else {
      var k, v := t[0].0, t[0].1;
      assert Keys(t)[0] == k;
      assert Keys(t[1..]) == Keys(t)[1..];
      NoNewlineNoIndent(v);
      var rest := OptionLines(t[1..]) + "\n";
      assert OptionLine(t[0]) == k + "=" + v + "\n";
      assert OptionLines(t) + "\n" == OptionLine(t[0]) + rest;
      ReadFlatLine(k, v, rest);
      ReadFlatOfOptionLines(t[1..]);
    }
  }

  /** A line ahead of text whose lines avoid `c` keeps that so when it does not start with `c`. */
  lemma LineAvoids(x: string, rest: string, c: char)
    requires '\n' !in x && x != "" && x[0] != c && LinesAvoid(rest, c, true)
    ensures LinesAvoid(x + "\n" + rest, c, true)
  {
    var s := x + "\n" + rest;
    forall i | 0 < i < |s| && s[i - 1] == '\n'
      ensures s[i] != c
    {
      if i - 1 < |x| {
        assert false;
      } else if i - 1 > |x| {
        assert s[i - 1] == rest[i - 2 - |x|] && s[i] == rest[i - 1 - |x|];
      } else {
        assert s[i] == rest[0];
      }
    }
    assert s[0] == x[0];
  }

  /** Written without its header, no line of a flat section starts with `c`, when no key does
      and `c` is neither `=` nor a line break. */
  lemma {:induction false} OptionLinesAvoid(t: Table, c: char)
    requires FlatSafe(t) && c != '=' && c != '\n'
    requires forall i :: 0 <= i < |t| ==> !StartsWith(t[i].0, [c])
    ensures LinesAvoid(OptionLines(t) + "\n", c, true)
  {
    if t == [] {
      assert OptionLines(t) + "\n" == "\n";
    } else {
      var k, v := t[0].0, t[0].1;
      assert Keys(t)[0] == k;
      assert Keys(t[1..]) == Keys(t)[1..];
      NoNewlineNoIndent(v);
      var x := k + "=" + v;
      var rest := OptionLines(t[1..]) + "\n";
      assert OptionLines(t) + "\n" == x + "\n" + rest;
      assert x[0] != c by {
        if k == "" {
          assert x[0] == '=';
        } else {
          assert x[0] == k[0];
          assert k[..1] == [k[0]];
        }
      }
      assert '\n' !in x;
      OptionLinesAvoid(t[1..], c);
      LineAvoids(x, rest, c);
    }
  }
}
