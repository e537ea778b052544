/** The tree of configuration sections: saved flat, one record per section with its full path,
    and rebuilt by path (common/config/config_file.cpp, config.cpp, section.cpp). */
module ConfigTree {
  import opened Options
  import opened ConfigText

  datatype Key = Key(name: string, value: string)

  /** Keys and subsections are found under their normalised names. */
  datatype Section = Section(name: string, keys: map<string, Key>, subs: map<string, Section>)

  /** How the configuration treats names and values: `norm` puts a name in lower case, or leaves it;
      `number` tells which values are written as numbers; `order` lists a set of names. */
  datatype Style = Style(norm: string -> string, number: string -> bool, order: set<string> -> seq<string>)

  ghost predicate Lists(q: seq<string>, s: set<string>) {
    && (forall i, j :: 0 <= i < j < |q| ==> q[i] != q[j])
    && (set x | x in q) == s
  }

  ghost predicate Proper(st: Style) {
    && (forall s :: Lists(st.order(s), s))
    && (forall v :: st.number(v) ==> '\\' !in v && !Quoted(v))
  }

  /** Everything is under its own normalised name, as sections always keep it. */
  ghost predicate WellKeyed(x: Section, st: Style) {
    && (forall k :: k in x.keys ==> st.norm(x.keys[k].name) == k)
    && (forall k :: k in x.subs ==> st.norm(x.subs[k].name) == k && WellKeyed(x.subs[k], st))
  }

  /** No section below has a slash in its name. */
  ghost predicate SlashFree(x: Section) {
    forall k :: k in x.subs ==> '/' !in x.subs[k].name && SlashFree(x.subs[k])
  }

  /** Every key's name survives being written and read. */
  ghost predicate KeysSurvive(x: Section) {
    && (forall k :: k in x.keys ==> Survives(x.keys[k].name))
    && (forall k :: k in x.subs ==> KeysSurvive(x.subs[k]))
  }

  // ----- the file -----

  /** A line's name and value as written. */
  datatype Line = Line(name: string, value: string)

  /** A section's header, none for the root, and its lines. */
  datatype Record = Record(header: Option<string>, lines: seq<Line>)

  /** A record with the path of names in place of the header. */
  datatype Entry = Entry(path: seq<string>, lines: seq<Line>)

  function SavedLines(keys: map<string, Key>, names: seq<string>, st: Style): seq<Line>
    requires forall k :: k in names ==> k in keys
  {
    if names == [] then []
    else
      var key := keys[names[0]];
      [Line(SavedName(key.name), SavedValue(key.value, st.number(key.value)))] + SavedLines(keys, names[1..], st)
  }

  function Under(name: string, es: seq<Entry>): (r: seq<Entry>)
    ensures |r| == |es|
  {
    if es == [] then [] else [Entry([name] + es[0].path, es[0].lines)] + Under(name, es[1..])
  }

  /** The section and what is below it, the section first; paths begin below the section. */
  ghost function Saved(x: Section, st: Style): seq<Entry>
    requires Proper(st)
    decreases x, 1, 0
  {
    assert Lists(st.order(x.keys.Keys), x.keys.Keys) && Lists(st.order(x.subs.Keys), x.subs.Keys);
    [Entry([], SavedLines(x.keys, st.order(x.keys.Keys), st))] + SavedSubs(x, st.order(x.subs.Keys), st)
  }

  ghost function SavedSubs(x: Section, names: seq<string>, st: Style): seq<Entry>
    requires Proper(st) && forall k :: k in names ==> k in x.subs
    decreases x, 0, |names|
  {
    if names == [] then []
    else
      var sub := x.subs[names[0]];
      Under(sub.name, Saved(sub, st)) + SavedSubs(x, names[1..], st)
  }

  /** The file: full paths as headers. */
  ghost function Written(es: seq<Entry>): seq<Record> {
    if es == [] then []
    else [Record(if es[0].path == [] then None else Some(Join(es[0].path)), es[0].lines)] + Written(es[1..])
  }

  // ----- reading it back -----

  /** Adds the keys of some lines, replacing what has the same normalised name. */
  function WithLines(keys: map<string, Key>, lines: seq<Line>, st: Style): map<string, Key>
    decreases |lines|
  {
    if lines == [] then keys
    else
      var key := Key(UnEscape(lines[0].name), UnEscape(lines[0].value));
      WithLines(keys[st.norm(key.name) := key], lines[1..], st)
  }

  function Child(x: Section, name: string, st: Style): Section {
    if st.norm(name) in x.subs then x.subs[st.norm(name)] else Section(name, map[], map[])
  }

  /** Goes down the path, creating what is missing, and adds the lines there. */
  function Added(x: Section, path: seq<string>, lines: seq<Line>, st: Style): Section
    decreases |path|
  {
    if path == [] then x.(keys := WithLines(x.keys, lines, st))
    else x.(subs := x.subs[st.norm(path[0]) := Added(Child(x, path[0], st), path[1..], lines, st)])
  }

  function Read(x: Section, rs: seq<Record>, st: Style): Section
    decreases |rs|
  {
    if rs == [] then x
    else Read(Added(x, if rs[0].header.None? then [] else Split(rs[0].header.value), rs[0].lines, st), rs[1..], st)
  }

  class Config {
    var root: Section
    const st: Style

    constructor (st: Style)
      ensures root == Section("", map[], map[]) && this.st == st
    {
      root := Section("", map[], map[]);
      this.st := st;
    }

    /** Evaluates the parsed file, record by record. */
    method Load(rs: seq<Record>)
      modifies this`root
      ensures root == Read(old(root), rs, st)
    {
      for i := 0 to |rs|
        invariant Read(root, rs[i..], st) == Read(old(root), rs, st)
      {
        assert rs[i..][0] == rs[i] && rs[i..][1..] == rs[i + 1..];
        var path := if rs[i].header.None? then [] else Split(rs[i].header.value);
        root := Added(root, path, rs[i].lines, st);
      }
    }
  }

  // ----- the round trip -----

  ghost function Built(x: Section, es: seq<Entry>, st: Style): Section
    decreases |es|
  {
    if es == [] then x else Built(Added(x, es[0].path, es[0].lines, st), es[1..], st)
  }

  ghost predicate NoSlashes(es: seq<Entry>) {
    forall i, j :: 0 <= i < |es| && 0 <= j < |es[i].path| ==> '/' !in es[i].path[j]
  }

  /** Reading what was written is following the paths, when no name has a slash in it. */
  lemma {:induction false} ReadWritten(x: Section, es: seq<Entry>, st: Style)
    requires NoSlashes(es)
    ensures Read(x, Written(es), st) == Built(x, es, st)
    decreases |es|
  {
    if es != [] {
      var e := es[0];
      if e.path != [] {
        PathRoundTrip(e.path);
      }
      assert Written(es)[1..] == Written(es[1..]);
      ReadWritten(Added(x, e.path, e.lines, st), es[1..], st);
    }
  }

  lemma {:induction false} BuiltConcat(x: Section, a: seq<Entry>, b: seq<Entry>, st: Style)
    ensures Built(x, a + b, st) == Built(Built(x, a, st), b, st)
    decreases |a|
  {
    if a == [] {
      assert a + b == b;
    } else {
      assert (a + b)[1..] == a[1..] + b;
      BuiltConcat(Added(x, a[0].path, a[0].lines, st), a[1..], b, st);
    }
  }

  /** Entries under a name build the subsection of that name. */
  lemma {:induction false} BuiltUnder(x: Section, name: string, es: seq<Entry>, st: Style)
    requires es != []
    ensures Built(x, Under(name, es), st) ==
      x.(subs := x.subs[st.norm(name) := Built(Child(x, name, st), es, st)])
    decreases |es|
  {
    var e := es[0];
    var y := Added(x, [name] + e.path, e.lines, st);
    assert ([name] + e.path)[1..] == e.path;
    assert Under(name, es)[1..] == Under(name, es[1..]);
    assert Child(y, name, st) == Added(Child(x, name, st), e.path, e.lines, st);
    if |es| > 1 {
      BuiltUnder(y, name, es[1..], st);
    }
  }

  /** A map with the values that another one has for some names. */
  ghost function PutAll<T>(m: map<string, T>, names: seq<string>, from: map<string, T>): map<string, T>
    requires forall k :: k in names ==> k in from
    decreases |names|
  {
    if names == [] then m else PutAll(m[names[0] := from[names[0]]], names[1..], from)
  }

  lemma {:induction false} PutAllAt<T>(m: map<string, T>, names: seq<string>, from: map<string, T>)
    requires forall k :: k in names ==> k in from
    ensures var r := PutAll(m, names, from);
      && (forall k :: k in r <==> k in m || k in names)
      && (forall k :: k in r ==> r[k] == if k in names then from[k] else m[k])
    decreases |names|
  {
    if names != [] {
      PutAllAt(m[names[0] := from[names[0]]], names[1..], from);
      assert forall k :: k in names <==> k == names[0] || k in names[1..];
    }
  }

  lemma {:induction false} PutEverything<T>(names: seq<string>, from: map<string, T>)
    requires Lists(names, from.Keys)
    ensures (forall k :: k in names ==> k in from) && PutAll(map[], names, from) == from
  {
    assert forall k :: k in names <==> k in (set x | x in names);
    PutAllAt(map[], names, from);
  }

  /** What reading makes of a section that was written. */
  ghost function Rebuilt(x: Section, st: Style): Section
    requires Proper(st)
    decreases x, 1
  {
    assert Lists(st.order(x.keys.Keys), x.keys.Keys);
    Section(x.name, WithLines(map[], SavedLines(x.keys, st.order(x.keys.Keys), st), st), RebuiltSubs(x, st))
  }

  ghost function RebuiltSubs(x: Section, st: Style): (r: map<string, Section>)
    requires Proper(st)
    ensures r.Keys == x.subs.Keys
    decreases x, 0
  {
    map k | k in x.subs :: Rebuilt(x.subs[k], st)
  }

  /** The entries of the subsections build what reading makes of them. */
  lemma {:induction false} SubsBack(x: Section, names: seq<string>, y: Section, st: Style)
    requires Proper(st) && WellKeyed(x, st) && forall k :: k in names ==> k in x.subs && k !in y.subs
    requires forall i, j :: 0 <= i < j < |names| ==> names[i] != names[j]
    ensures Built(y, SavedSubs(x, names, st), st) == y.(subs := PutAll(y.subs, names, RebuiltSubs(x, st)))
    decreases x, 0, |names|
  {
    hide Built, Saved, Proper, Rebuilt;
    if names == [] {
      BuiltNone(y, st);
    } else {
      var sub := x.subs[names[0]];
      TreeBack(sub, st);
      BuiltConcat(y, Under(sub.name, Saved(sub, st)), SavedSubs(x, names[1..], st), st);
      SavedSome(sub, st);
      BuiltUnder(y, sub.name, Saved(sub, st), st);
      assert Child(y, sub.name, st) == Section(sub.name, map[], map[]);
      SubsBack(x, names[1..], y.(subs := y.subs[names[0] := Rebuilt(sub, st)]), st);
    }
  }

  lemma {:induction false} BuiltNone(x: Section, st: Style)
    ensures Built(x, [], st) == x
  {
  }

  lemma {:induction false} SavedSome(x: Section, st: Style)
    requires Proper(st)
    ensures Saved(x, st) != []
  {
  }

  /** A section's entries build what reading makes of it. */
  lemma {:induction false} TreeBack(x: Section, st: Style)
    requires Proper(st) && WellKeyed(x, st)
    ensures Built(Section(x.name, map[], map[]), Saved(x, st), st) == Rebuilt(x, st)
    decreases x, 1, 0
  {
    var ks, ss := st.order(x.keys.Keys), st.order(x.subs.Keys);
    assert Lists(ks, x.keys.Keys) && Lists(ss, x.subs.Keys);
    PutEverything(ss, RebuiltSubs(x, st));
    NamesOf(ks, x.keys.Keys);
    NamesOf(ss, x.subs.Keys);
    hide Proper, SavedSubs, SavedLines, WithLines, PutAll, RebuiltSubs;
    var y := Section(x.name, WithLines(map[], SavedLines(x.keys, ks, st), st), map[]);
    assert Saved(x, st)[1..] == SavedSubs(x, ss, st);
    SubsBack(x, ss, y, st);
  }

  lemma {:induction false} NamesOf(names: seq<string>, s: set<string>)
    requires Lists(names, s)
    ensures forall k :: k in names <==> k in s
  {
    assert forall k :: k in names <==> k in (set x | x in names);
  }

  // ----- when the tree comes back -----

  /** The lines of keys whose names survive give the keys. */
  lemma {:induction false} LinesBack(keys: map<string, Key>, names: seq<string>, before: map<string, Key>, st: Style)
    requires Proper(st) && forall k :: k in names ==> k in keys
    requires forall k :: k in keys ==> st.norm(keys[k].name) == k && Survives(keys[k].name)
    ensures WithLines(before, SavedLines(keys, names, st), st) == PutAll(before, names, keys)
    decreases |names|
  {
    hide UnEscape, SavedName, SavedValue, Quoted, Survives;
    if names != [] {
      var key := keys[names[0]];
      NameRoundTrip(key.name);
      ValueRoundTrip(key.value, st.number(key.value));
      LinesBack(keys, names[1..], before[names[0] := key], st);
      assert SavedLines(keys, names, st)[1..] == SavedLines(keys, names[1..], st);
    }
  }

  /** Every key that is read has the name that was read on some line. */
  lemma {:induction false} ReadFrom(keys: map<string, Key>, names: seq<string>, before: map<string, Key>, st: Style,
      k: string)
    returns (i: nat)
    requires forall k :: k in names ==> k in keys
    requires var r := WithLines(before, SavedLines(keys, names, st), st); k in r && !(k in before && before[k] == r[k])
    ensures i < |names| && names[i] in keys
    ensures WithLines(before, SavedLines(keys, names, st), st)[k].name == UnEscape(SavedName(keys[names[i]].name))
    decreases |names|
  {
    hide UnEscape, SavedName, SavedValue;
    var line := SavedLines(keys, names, st)[0];
    var key := Key(UnEscape(line.name), UnEscape(line.value));
    var now := before[st.norm(key.name) := key];
    assert SavedLines(keys, names, st)[1..] == SavedLines(keys, names[1..], st);
    var r := WithLines(now, SavedLines(keys, names[1..], st), st);
    if k in now && now[k] == r[k] {
      i := 0;
    } else {
      i := ReadFrom(keys, names[1..], now, st, k);
      i := i + 1;
    }
  }

  lemma {:induction false} LongestName(keys: map<string, Key>, names: seq<string>) returns (n: nat)
    requires forall k :: k in names ==> k in keys
    ensures forall k :: k in names ==> |keys[k].name| <= n
  {
    n := 0;
    if names != [] {
      n := LongestName(keys, names[1..]);
      if n < |keys[names[0]].name| {
        n := |keys[names[0]].name|;
      }
    }
  }

  /** If the keys come back, then each name is what was read of one, which is longer unless it
      survives: so all survive. */
  lemma {:induction false} NameSurvives(keys: map<string, Key>, names: seq<string>, st: Style, k: string, longest: nat)
    requires (forall j :: j in names ==> j in keys) && k in keys && forall j :: j in names ==> |keys[j].name| <= longest
    requires k in names && WithLines(map[], SavedLines(keys, names, st), st) == keys
    ensures Survives(keys[k].name)
    decreases longest - |keys[k].name|
  {
    hide UnEscape, SavedName, WithLines, SavedLines, Survives;
    if !Survives(keys[k].name) {
      var i := ReadFrom(keys, names, map[], st, k);
      var name := keys[names[i]].name;
      NameRoundTrip(name);
      assert names[i] in names;
      if !Survives(name) {
        NameSurvives(keys, names, st, names[i], longest);
      }
    }
  }

  /** A section comes back exactly when all names of its keys, and of those below, survive. */
  lemma {:induction false} RebuiltExactly(x: Section, st: Style)
    requires Proper(st) && WellKeyed(x, st)
    ensures Rebuilt(x, st) == x <==> KeysSurvive(x)
  {
    var ks := st.order(x.keys.Keys);
    assert Lists(ks, x.keys.Keys);
    NamesOf(ks, x.keys.Keys);
    PutEverything(ks, x.keys);
    forall k | k in x.subs
      ensures Rebuilt(x.subs[k], st) == x.subs[k] <==> KeysSurvive(x.subs[k])
    {
      RebuiltExactly(x.subs[k], st);
    }
    hide Proper, SavedLines, WithLines, PutAll, Survives;
    if Rebuilt(x, st) == x {
      var longest := LongestName(x.keys, ks);
      forall k | k in x.keys
        ensures Survives(x.keys[k].name)
      {
        NameSurvives(x.keys, ks, st, k, longest);
      }
      assert forall k :: k in x.subs ==> RebuiltSubs(x, st)[k] == x.subs[k];
    }
    if KeysSurvive(x) {
      LinesBack(x.keys, ks, map[], st);
      assert RebuiltSubs(x, st) == x.subs;
    }
  }

  lemma {:induction false} UnderNoSlashes(name: string, es: seq<Entry>)
    requires '/' !in name && NoSlashes(es)
    ensures NoSlashes(Under(name, es))
  {
    if es != [] {
      assert forall i :: 0 <= i < |es[1..]| ==> es[1..][i] == es[i + 1];
      UnderNoSlashes(name, es[1..]);
      var u := Under(name, es);
      forall i, j | 0 <= i < |u| && 0 <= j < |u[i].path|
        ensures '/' !in u[i].path[j]
      {
        if i > 0 {
          assert u[i] == Under(name, es[1..])[i - 1];
        } else {
          assert j > 0 ==> u[0].path[j] == es[0].path[j - 1];
        }
      }
    }
  }

  lemma {:induction false} SubsNoSlashes(x: Section, names: seq<string>, st: Style)
    requires Proper(st) && SlashFree(x) && forall k :: k in names ==> k in x.subs
    ensures NoSlashes(SavedSubs(x, names, st))
    decreases x, 0, |names|
  {
    if names != [] {
      var sub := x.subs[names[0]];
      TreeNoSlashes(sub, st);
      UnderNoSlashes(sub.name, Saved(sub, st));
      SubsNoSlashes(x, names[1..], st);
    }
  }

  lemma {:induction false} TreeNoSlashes(x: Section, st: Style)
    requires Proper(st) && SlashFree(x)
    ensures NoSlashes(Saved(x, st))
    decreases x, 1, 0
  {
    assert Lists(st.order(x.keys.Keys), x.keys.Keys) && Lists(st.order(x.subs.Keys), x.subs.Keys);
    SubsNoSlashes(x, st.order(x.subs.Keys), st);
  }

  lemma {:induction false} AddedSlashFree(x: Section, path: seq<string>, lines: seq<Line>, st: Style)
    requires SlashFree(x) && forall j :: 0 <= j < |path| ==> '/' !in path[j]
    ensures SlashFree(Added(x, path, lines, st)) && Added(x, path, lines, st).name == x.name
    decreases |path|
  {
    if path != [] {
      AddedSlashFree(Child(x, path[0], st), path[1..], lines, st);
    }
  }

  /** Whatever is read, its sections have no slash in their names. */
  lemma {:induction false} ReadSlashFree(x: Section, rs: seq<Record>, st: Style)
    requires SlashFree(x)
    ensures SlashFree(Read(x, rs, st))
    decreases |rs|
  {
    if rs != [] {
      var path := if rs[0].header.None? then [] else Split(rs[0].header.value);
      if rs[0].header.Some? {
        SplitParts(rs[0].header.value);
      }
      AddedSlashFree(x, path, rs[0].lines, st);
      ReadSlashFree(Added(x, path, rs[0].lines, st), rs[1..], st);
    }
  }

  /** A saved tree is read back as it was, whatever the order in which keys and subsections are
      written, exactly when no section's name has a slash in it and every key's name survives. */
  lemma {:induction false} SaveAndLoad(root: Section, st: Style)
    requires Proper(st) && WellKeyed(root, st)
    ensures Read(Section(root.name, map[], map[]), Written(Saved(root, st)), st) == root
      <==> SlashFree(root) && KeysSurvive(root)
  {
    hide Proper, Read, Written, Saved, Built, Rebuilt, KeysSurvive, WellKeyed;
    var empty := Section(root.name, map[], map[]);
    ReadSlashFree(empty, Written(Saved(root, st)), st);
    if SlashFree(root) {
      TreeNoSlashes(root, st);
      ReadWritten(empty, Saved(root, st), st);
      TreeBack(root, st);
      RebuiltExactly(root, st);
    }
  }

  // ----- what a key is after any file -----

  /** The key under normalised names. */
  ghost function Lookup(x: Section, path: seq<string>, k: string): Option<Key>
    decreases |path|
  {
    if path == [] then (if k in x.keys then Some(x.keys[k]) else None)
    else if path[0] in x.subs then Lookup(x.subs[path[0]], path[1..], k)
    else None
  }

  ghost function Norms(path: seq<string>, st: Style): seq<string> {
    seq(|path|, i requires 0 <= i < |path| => st.norm(path[i]))
  }

  ghost function PathOf(r: Record): seq<string> {
    if r.header.None? then [] else Split(r.header.value)
  }

  /** The key that the last of some lines with that name gives, or `before`. */
  ghost function LastLine(lines: seq<Line>, k: string, st: Style, before: Option<Key>): Option<Key>
    decreases |lines|
  {
    if lines == [] then before
    else
      var key := Key(UnEscape(lines[0].name), UnEscape(lines[0].value));
      LastLine(lines[1..], k, st, if st.norm(key.name) == k then Some(key) else before)
  }

  /** The key that the last line with that name in a record for that section gives, or `before`. */
  ghost function LastSet(rs: seq<Record>, path: seq<string>, k: string, st: Style, before: Option<Key>): Option<Key>
    decreases |rs|
  {
    if rs == [] then before
    else
      LastSet(rs[1..], path, k, st,
              if Norms(PathOf(rs[0]), st) == path then LastLine(rs[0].lines, k, st, before) else before)
  }

  lemma {:induction false} LinesLookup(keys: map<string, Key>, lines: seq<Line>, st: Style, k: string)
    ensures (if k in WithLines(keys, lines, st) then Some(WithLines(keys, lines, st)[k]) else None)
      == LastLine(lines, k, st, if k in keys then Some(keys[k]) else None)
    decreases |lines|
  {
    if lines != [] {
      hide UnEscape;
      var key := Key(UnEscape(lines[0].name), UnEscape(lines[0].value));
      LinesLookup(keys[st.norm(key.name) := key], lines[1..], st, k);
    }
  }

  lemma {:induction false} EmptyLookup(name: string, path: seq<string>, k: string)
    ensures Lookup(Section(name, map[], map[]), path, k) == None
  {
  }

  /** Adding lines to a section changes the keys of that section only. */
  lemma {:induction false} AddedLookup(x: Section, path: seq<string>, lines: seq<Line>, st: Style, q: seq<string>,
      k: string)
    ensures Lookup(Added(x, path, lines, st), q, k)
      == if Norms(path, st) == q then LastLine(lines, k, st, Lookup(x, q, k)) else Lookup(x, q, k)
    decreases |path|
  {
    hide LastLine, WithLines;
    if path == [] {
      LinesLookup(x.keys, lines, st, k);
    } else {
      var n, rest := st.norm(path[0]), Norms(path[1..], st);
      assert Norms(path, st) == [n] + rest;
      if q != [] {
        assert q == [q[0]] + q[1..];
        if q[0] == n {
          AddedLookup(Child(x, path[0], st), path[1..], lines, st, q[1..], k);
          EmptyLookup(path[0], q[1..], k);
          assert Norms(path, st) == q <==> rest == q[1..];
        }
      }
    }
  }

  /** Whatever the file, each key is what the last line that sets it says, in whichever record for its
      section, and what it was before if none does. */
  lemma {:induction false} LastSettingWins(x: Section, rs: seq<Record>, st: Style, path: seq<string>, k: string)
    ensures Lookup(Read(x, rs, st), path, k) == LastSet(rs, path, k, st, Lookup(x, path, k))
    decreases |rs|
  {
    if rs != [] {
      hide Added, Lookup, LastLine, Norms, Split;
      AddedLookup(x, PathOf(rs[0]), rs[0].lines, st, path, k);
      LastSettingWins(Added(x, PathOf(rs[0]), rs[0].lines, st), rs[1..], st, path, k);
    }
  }
}
