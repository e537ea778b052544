/** Text of keys and paths in a configuration file
    (common/config/config_file.cpp, config.cpp, section.cpp). */
module ConfigText {
  // ----- escaping -----

  function EscapeChar(c: char): (r: string) {
    if c == '\\' then "\\\\" else if c == '"' then "\\\"" else [c]
  }

  function Escape(s: string): string {
    if s == [] then [] else EscapeChar(s[0]) + Escape(s[1..])
  }

  /** The character that a backslash and `c` stand for. */
  function UnEscapeChar(c: char): char {
    match c
    case 'b' => '\U{0008}'
    case 'r' => '\r'
    case 'f' => '\U{000C}'
    case 't' => '\t'
    case 'n' => '\n'
    case _ => c
  }

  /** Without the backslashes; `backslash` tells that the character before was one. */
  function Plain(s: string, backslash: bool): string {
    if s == [] then []
    else if backslash then [UnEscapeChar(s[0])] + Plain(s[1..], false)
    else if s[0] == '\\' then Plain(s[1..], true)
    else [s[0]] + Plain(s[1..], false)
  }

  predicate Quoted(s: string) {
    |s| >= 2 && s[0] == '"' && s[|s| - 1] == '"'
  }

  function Unquoted(s: string): string {
    if Quoted(s) then s[1..|s| - 1] else s
  }

  function UnEscape(s: string): string {
    Plain(Unquoted(s), false)
  }

  function Quote(s: string): string { "\"" + s + "\"" }

  method EscapeText(source: string) returns (dest: string)
    ensures dest == Escape(source)
  {
    hide Escape;
    EscapeEmpty();
    dest := "";
    for i := 0 to |source|
      invariant dest + Escape(source[i..]) == Escape(source)
    {
      var c := source[i];
      assert source[i..][0] == c && source[i..][1..] == source[i + 1..];
      EscapeNext(dest, source[i..]);
      match c {
        case '\\' => dest := dest + "\\\\";
        case '"' => dest := dest + "\\\"";
        case _ => dest := dest + [c];
      }
    }
  }

  lemma {:induction false} EscapeEmpty()
    ensures Escape("") == ""
  {
  }

  lemma {:induction false} EscapeNext(dest: string, s: string)
    requires s != []
    ensures dest + Escape(s) == (dest + EscapeChar(s[0])) + Escape(s[1..])
  {
  }

  method UnEscapeText(source: string) returns (dest: string)
    ensures dest == UnEscape(source)
  {
    hide Plain, UnEscapeChar;
    PlainEmpty();
    var start, end := 0, |source|;
    if Quoted(source) {
      start, end := 1, |source| - 1;
    }
    assert source[start..end] == Unquoted(source);
    dest := "";
    var backslash := false;
    for i := start to end
      invariant dest + Plain(source[i..end], backslash) == UnEscape(source)
    {
      var c := source[i];
      assert source[i..end][0] == c && source[i..end][1..] == source[i + 1..end];
      PlainNext(dest, source[i..end], backslash);
      if backslash {
        dest := dest + [UnEscapeChar(c)];
        backslash := false;
      } else if c == '\\' {
        backslash := true;
      } else {
        dest := dest + [c];
      }
    }
  }

  lemma {:induction false} PlainEmpty()
    ensures Plain("", false) == "" && Plain("", true) == ""
  {
  }

  lemma {:induction false} PlainNext(dest: string, s: string, backslash: bool)
    requires s != []
    ensures dest + Plain(s, backslash) ==
      if backslash then (dest + [UnEscapeChar(s[0])]) + Plain(s[1..], false)
      else if s[0] == '\\' then dest + Plain(s[1..], true)
      else (dest + [s[0]]) + Plain(s[1..], false)
  {
  }

  lemma {:induction false} PlainOfEscape(s: string)
    ensures Plain(Escape(s), false) == s
  {
    if s != [] {
      PlainOfEscape(s[1..]);
      var rest := Escape(s[1..]);
      if s[0] == '\\' || s[0] == '"' {
        assert Escape(s) == ['\\'] + ([s[0]] + rest);
        assert ([s[0]] + rest)[1..] == rest && Escape(s)[1..] == [s[0]] + rest;
        assert Plain(Escape(s), false) == Plain([s[0]] + rest, true);
      } else {
        assert Escape(s)[1..] == rest;
      }
    }
  }

  /** Unescaping an escaped text gives it back, with quotes around it or without. */
  lemma {:induction false} EscapeRoundTrip(s: string)
    ensures UnEscape(Quote(Escape(s))) == s && UnEscape(Escape(s)) == s
  {
    PlainOfEscape(s);
    var q := Quote(Escape(s));
    assert Quoted(q) && q[1..|q| - 1] == Escape(s);
    assert !Quoted(Escape(s));
  }

  /** The letter that stands, behind a backslash, for a control character. */
  ghost function LetterOf(c: char): char {
    if c == '\U{0008}' then 'b'
    else if c == '\r' then 'r'
    else if c == '\U{000C}' then 'f'
    else if c == '\t' then 't'
    else if c == '\n' then 'n'
    else c
  }

  /** Every character behind a backslash, except the letters that stand for others. */
  ghost function AllEscaped(s: string): string {
    if s == [] then []
    else (if s[0] in "brftn" then [s[0]] else ['\\', LetterOf(s[0])]) + AllEscaped(s[1..])
  }

  /** Five letters behind a backslash stand for control characters, every other one for itself. */
  lemma {:induction false} ControlRoundTrip(s: string)
    ensures Plain(AllEscaped(s), false) == s
  {
    if s != [] {
      ControlRoundTrip(s[1..]);
      var rest := AllEscaped(s[1..]);
      if s[0] in "brftn" {
        assert AllEscaped(s)[1..] == rest;
      } else {
        assert AllEscaped(s)[0] == '\\' && AllEscaped(s)[1..] == [LetterOf(s[0])] + rest;
        assert ([LetterOf(s[0])] + rest)[1..] == rest;
        assert UnEscapeChar(LetterOf(s[0])) == s[0];
      }
    }
  }

  // ----- what is written for a name and a value -----

  /** A name is quoted only if it has a space or a quote in it. */
  function SavedName(name: string): string {
    if ' ' in name || '"' in name then Quote(Escape(name)) else name
  }

  function SavedValue(value: string, number: bool): string {
    if number then value else Quote(Escape(value))
  }

  lemma {:induction false} PlainShorter(s: string, backslash: bool)
    ensures |Plain(s, backslash)| <= |s|
    ensures !backslash && '\\' in s ==> |Plain(s, backslash)| < |s|
    ensures !backslash && '\\' !in s ==> Plain(s, backslash) == s
  {
    if s != [] {
      PlainShorter(s[1..], !backslash && s[0] == '\\');
      assert s == [s[0]] + s[1..];
    }
  }

  /** The name has no backslash in it, or is quoted when it is written. */
  predicate Survives(name: string) {
    '\\' !in name || ' ' in name || '"' in name
  }

  /** Exactly such a name comes back; any other comes back shorter. */
  lemma {:induction false} NameRoundTrip(name: string)
    ensures UnEscape(SavedName(name)) == name <==> Survives(name)
    ensures !Survives(name) ==> |UnEscape(SavedName(name))| < |name|
    ensures Quoted(SavedName(name)) <==> ' ' in name || '"' in name
  {
    if ' ' in name || '"' in name {
      EscapeRoundTrip(name);
    } else {
      assert !Quoted(name);
      PlainShorter(name, false);
    }
  }

  /** A name that is written as it is, and read as another. */
  lemma {:induction false} NameChanges()
    ensures UnEscape(SavedName("a\\t")) == "a\t"
  {
    var s := "a\\t";
    assert s[1..] == "\\t" && s[1..][1..] == "t" && "t"[1..] == "";
    assert Plain("t", true) == "\t";
    assert Plain("\\t", false) == "\t";
  }

  lemma {:induction false} ValueRoundTrip(value: string, number: bool)
    requires number ==> '\\' !in value && !Quoted(value)
    ensures UnEscape(SavedValue(value, number)) == value
    ensures Quoted(SavedValue(value, number)) <==> !number
  {
    EscapeRoundTrip(value);
    PlainShorter(value, false);
  }

  // ----- paths -----

  function Join(names: seq<string>): string
    requires names != []
  {
    if |names| == 1 then names[0] else names[0] + "/" + Join(names[1..])
  }

  /** The parts between slashes. */
  function Split(path: string): (r: seq<string>)
    ensures r != []
  {
    if path == [] then [""]
    else
      var rest := Split(path[1..]);
      if path[0] == '/' then [""] + rest else [[path[0]] + rest[0]] + rest[1..]
  }

  lemma {:induction false} SplitFirst(name: string, path: string)
    requires '/' !in name
    ensures Split(name + "/" + path) == [name] + Split(path)
  {
    var s := name + "/" + path;
    if name == [] {
      assert s == "/" + path && s[1..] == path;
    } else {
      SplitFirst(name[1..], path);
      assert s[1..] == name[1..] + "/" + path && s[0] == name[0];
      assert [name[0]] + name[1..] == name;
      assert Split(s) == [[s[0]] + name[1..]] + ([name[1..]] + Split(path))[1..];
    }
  }

  lemma {:induction false} SplitOne(name: string)
    requires '/' !in name
    ensures Split(name) == [name]
  {
    if name != [] {
      SplitOne(name[1..]);
      assert [name[0]] + name[1..] == name;
    }
  }

  ghost function Slashes(s: string): nat {
    if s == [] then 0 else (if s[0] == '/' then 1 else 0) + Slashes(s[1..])
  }

  lemma {:induction false} SplitParts(path: string)
    ensures forall i :: 0 <= i < |Split(path)| ==> '/' !in Split(path)[i]
  {
    if path != [] {
      SplitParts(path[1..]);
    }
  }

  lemma {:induction false} SplitCount(path: string)
    ensures |Split(path)| == Slashes(path) + 1
  {
    if path != [] {
      SplitCount(path[1..]);
    }
  }

  lemma {:induction false} SlashesConcat(a: string, b: string)
    ensures Slashes(a + b) == Slashes(a) + Slashes(b)
  {
    if a == [] {
      assert a + b == b;
    } else {
      assert (a + b)[1..] == a[1..] + b;
      SlashesConcat(a[1..], b);
    }
  }

  lemma {:induction false} HasSlash(s: string)
    ensures Slashes(s) > 0 <==> '/' in s
  {
    if s != [] {
      HasSlash(s[1..]);
      assert s == [s[0]] + s[1..];
    }
  }

  lemma {:induction false} JoinSlashes(names: seq<string>)
    requires names != []
    ensures Slashes(Join(names)) >= |names| - 1
    ensures Slashes(Join(names)) == |names| - 1 ==> forall i :: 0 <= i < |names| ==> '/' !in names[i]
  {
    HasSlash(names[0]);
    if |names| > 1 {
      JoinSlashes(names[1..]);
      SlashesConcat(names[0] + "/", Join(names[1..]));
      SlashesConcat(names[0], "/");
      assert Slashes("/") == 1;
      assert forall i :: 1 <= i < |names| ==> names[i] == names[1..][i - 1];
    }
  }

  /** Splitting a full path gives its names back exactly when none has a slash in it. */
  lemma {:induction false} PathRoundTrip(names: seq<string>)
    requires names != []
    ensures Split(Join(names)) == names <==> forall i :: 0 <= i < |names| ==> '/' !in names[i]
  {
    if forall i :: 0 <= i < |names| ==> '/' !in names[i] {
      SplitsBack(names);
    } else {
      JoinSlashes(names);
      SplitCount(Join(names));
    }
  }

  lemma {:induction false} SplitsBack(names: seq<string>)
    requires names != [] && forall i :: 0 <= i < |names| ==> '/' !in names[i]
    ensures Split(Join(names)) == names
  {
    if |names| == 1 {
      SplitOne(names[0]);
    } else {
      SplitsBack(names[1..]);
      SplitFirst(names[0], Join(names[1..]));
    }
  }
}
