/** Dropped paths typed at the shell, each escaped to read back as one word. */
module ShellWords {
  import opened Wire

  datatype Flavor = Posix | Windows

  /** ASCII bytes a POSIX shell must not see unescaped. */
  predicate NeedsEscape(byte: nat) {
    byte < 128 && !IsAlphanumeric(byte) && byte !in SAFE_BYTES
  }

  predicate IsAlphanumeric(byte: nat) {
    0x30 <= byte <= 0x39 || 0x41 <= byte <= 0x5A || 0x61 <= byte <= 0x7A
  }

  /** `. _ / - + , : @ = %` */
  const SAFE_BYTES: set<nat> := {0x2E, 0x5F, 0x2F, 0x2D, 0x2B, 0x2C, 0x3A, 0x40, 0x3D, 0x25}

  /** A character the Windows dialect types without quotes. */
  predicate IsPlain(c: char) { !NeedsEscape(c as nat) || c == '\\' }

  /** A character as it is typed, with a backslash if it is special. */
  function Typed(c: char): string {
    if NeedsEscape(c as nat) then ['\\', c] else [c]
  }

  /** A path with a backslash before every special character. */
  function Escaped(path: string): string {
    if path == [] then []
    else Typed(path[0]) + Escaped(path[1..])
  }

  /** What a quote is typed as inside quotes, and any other character. */
  function Quoted(c: char): string {
    if c == '"' then ['"', '"'] else [c]
  }

  /** A path with every double quote doubled. */
  function Doubled(path: string): string {
    if path == [] then []
    else Quoted(path[0]) + Doubled(path[1..])
  }

  function Word(path: string, flavor: Flavor): string {
    match flavor
    case Posix => Escaped(path) + " "
    case Windows => if forall c <- path :: IsPlain(c) then path + " " else "\"" + Doubled(path) + "\"" + " "
  }

  /** Every path in drop order. */
  function Words(paths: seq<string>, flavor: Flavor): string {
    if paths == [] then [] else Word(paths[0], flavor) + Words(paths[1..], flavor)
  }

  lemma Associates(a: string, b: string, c: string)
    ensures a + b + c == a + (b + c)
  {
  }

  lemma EscapedAt(path: string, i: nat)
    requires i < |path|
    ensures Escaped(path[i..]) == Typed(path[i]) + Escaped(path[i + 1..])
  {
    assert path[i..][0] == path[i] && path[i..][1..] == path[i + 1..];
  }

  lemma DoubledAt(path: string, i: nat)
    requires i < |path|
    ensures Doubled(path[i..]) == Quoted(path[i]) + Doubled(path[i + 1..])
  {
    assert path[i..][0] == path[i] && path[i..][1..] == path[i + 1..];
  }

  method WriteEscaped(path: string) returns (out: string)
    ensures out == Escaped(path)
  {
    hide Escaped, NeedsEscape;
    out := [];
    assert path[0..] == path;
    for i := 0 to |path|
      invariant out + Escaped(path[i..]) == Escaped(path)
    {
      EscapedAt(path, i);
      Associates(out, Typed(path[i]), Escaped(path[i + 1..]));
      ghost var before := out;
      if NeedsEscape(path[i] as nat) {
        out := out + ['\\'];
      }
      out := out + [path[i]];
      assert out == before + Typed(path[i]);
    }
    NothingTyped(path);
  }

  lemma NothingTyped(path: string)
    ensures Escaped(path[|path|..]) == [] && Doubled(path[|path|..]) == []
  {
  }

  method WriteDoubled(path: string) returns (out: string)
    ensures out == Doubled(path)
  {
    hide Doubled;
    out := [];
    assert path[0..] == path;
    for i := 0 to |path|
      invariant out + Doubled(path[i..]) == Doubled(path)
    {
      DoubledAt(path, i);
      Associates(out, Quoted(path[i]), Doubled(path[i + 1..]));
      ghost var before := out;
      if path[i] == '"' {
        out := out + ['"'];
      }
      out := out + [path[i]];
      assert out == before + Quoted(path[i]);
    }
    NothingTyped(path);
  }

  method WordFor(path: string, flavor: Flavor) returns (out: string)
    ensures out == Word(path, flavor)
  {
    match flavor {
      case Posix =>
        out := WriteEscaped(path);
      case Windows =>
        if forall c <- path :: IsPlain(c) {
          out := path;
        } else {
          var inner := WriteDoubled(path);
          out := "\"" + inner + "\"";
        }
    }
    out := out + " ";
  }

  // ------------------------------------------------------------ a POSIX reader

  /** The characters that end a word or start something other than plain text
      when unquoted (POSIX.1-2017 XCU section 2.2), blanks and backslash apart. */
  const SPECIAL_CHARS: set<char> := {'|', '&', ';', '<', '>', '(', ')', '$', '`', '"', '\'', '*', '?', '[', '#', '~', '!', '{', '}', '\n'}

  /** A word ended: put it in front of the words that follow. */
  function Ended(word: string, rest: Option<seq<string>>): Option<seq<string>> {
    if word == [] || rest.None? then rest else Some([word] + rest.value)
  }

  /** Splits at unescaped blanks and removes backslashes (sections 2.2.1 and
      2.3): a backslash keeps the next character, except that backslash and
      newline vanish together. Nothing else may be special. Only words that
      no quote can make empty are read, so an empty `word` is no word yet. */
  function Read(s: string, word: string): Option<seq<string>>
    decreases |s|
  {
    if s == [] then Ended(word, Some([]))
    else if s[0] == '\\' then
      if |s| == 1 then None
      else Read(s[2..], if s[1] == '\n' then word else word + [s[1]])
    else if s[0] == ' ' || s[0] == '\t' then Ended(word, Read(s[1..], []))
    else if s[0] in SPECIAL_CHARS then None
    else Read(s[1..], word + [s[0]])
  }

  /** A path without its newlines. */
  function Flattened(path: string): string {
    if path == [] then [] else (if path[0] == '\n' then [] else [path[0]]) + Flattened(path[1..])
  }

  /** The words that come back: newlines lost, and empty words lost. */
  function Survivors(paths: seq<string>): seq<string> {
    if paths == [] then []
    else (if Flattened(paths[0]) == [] then [] else [Flattened(paths[0])]) + Survivors(paths[1..])
  }

  /** One typed character, escaped or not, is read back. */
  lemma ReadOne(c: char, tail: string, word: string)
    ensures Read(Typed(c) + tail, word)
              == Read(tail, if c == '\n' then word else word + [c])
  {
    var s := Typed(c) + tail;
    assert s[if NeedsEscape(c as nat) then 2 else 1..] == tail;
  }

  /** A blank ends the word. */
  lemma ReadSpace(rest: string, word: string)
    ensures Read(" " + rest, word) == Ended(word, Read(rest, []))
  {
    assert (" " + rest)[1..] == rest;
  }

  lemma EscapedFirst(path: string, rest: string)
    requires path != []
    ensures Escaped(path) + " " + rest == Typed(path[0]) + (Escaped(path[1..]) + " " + rest)
  {
    hide Typed;
    Associates(Typed(path[0]), Escaped(path[1..]), " ");
    Associates(Typed(path[0]), Escaped(path[1..]) + " ", rest);
  }

  lemma FlattenedFirst(path: string, word: string)
    requires path != []
    ensures (if path[0] == '\n' then word else word + [path[0]]) + Flattened(path[1..]) == word + Flattened(path)
  {
    var rest := Flattened(path[1..]);
    if path[0] == '\n' {
      assert [] + rest == rest;
    } else {
      Associates(word, [path[0]], rest);
    }
  }

  lemma {:induction false} ReadEscaped(path: string, rest: string, word: string)
    ensures Read(Escaped(path) + " " + rest, word) == Ended(word + Flattened(path), Read(rest, []))
  {
    hide NeedsEscape, Read, Ended, Typed;
    if path == [] {
      assert Escaped(path) + " " + rest == " " + rest && word + Flattened(path) == word;
      ReadSpace(rest, word);
    } else {
      hide Escaped, Flattened;
      EscapedFirst(path, rest);
      ReadOne(path[0], Escaped(path[1..]) + " " + rest, word);
      ReadEscaped(path[1..], rest, if path[0] == '\n' then word else word + [path[0]]);
      FlattenedFirst(path, word);
    }
  }

  lemma {:induction false} ReadWords(paths: seq<string>)
    ensures Read(Words(paths, Posix), []) == Some(Survivors(paths))
  {
    if paths == [] {
    } else {
      var rest := Words(paths[1..], Posix);
      assert Words(paths, Posix) == Escaped(paths[0]) + " " + rest;
      ReadEscaped(paths[0], rest, []);
      ReadWords(paths[1..]);
      assert [] + Flattened(paths[0]) == Flattened(paths[0]) && [] + Survivors(paths[1..]) == Survivors(paths[1..]);
    }
  }

  lemma {:induction false} FlattenedSame(path: string)
    ensures |Flattened(path)| <= |path| && (Flattened(path) == path <==> '\n' !in path)
    ensures '\n' in path ==> |Flattened(path)| < |path|
  {
    if path == [] {
    } else {
      FlattenedSame(path[1..]);
    }
  }

  lemma {:induction false} SurvivorsSame(paths: seq<string>)
    ensures |Survivors(paths)| <= |paths|
    ensures Survivors(paths) == paths <==> forall p <- paths :: p != [] && '\n' !in p
  {
    if paths == [] {
    } else {
      var rest := paths[1..];
      SurvivorsSame(rest);
      FlattenedSame(paths[0]);
      assert paths == [paths[0]] + rest;
      if Survivors(paths) == paths {
        assert Survivors(paths)[0] == paths[0] && Survivors(paths)[1..] == rest;
      }
    }
  }

  /** The round trip: a POSIX shell reads the typed text back as exactly the
      paths, in order, if and only if none is empty and none holds a newline. */
  lemma PosixRoundTripIff(paths: seq<string>)
    ensures Read(Words(paths, Posix), []) == Some(paths) <==> forall p <- paths :: p != [] && '\n' !in p
  {
    ReadWords(paths);
    SurvivorsSame(paths);
  }

  // ------------------------------------------------------------ a Windows reader

  /** Words split at blanks outside double quotes; inside, a doubled quote is
      one quote. Splitting and quotes are all it reads: what cmd or PowerShell do
      with a bare `,` or `@`, or with `$`, a backtick or `%`, it takes as text.
      `begun` tells an empty quoted word from no word. */
  function ReadQuoted(s: string, word: string, begun: bool, inside: bool): Option<seq<string>>
    decreases |s|
  {
    if s == [] then if inside then None else if begun then Some([word]) else Some([])
    else if inside then
      if s[0] != '"' then ReadQuoted(s[1..], word + [s[0]], true, true)
      else if |s| > 1 && s[1] == '"' then ReadQuoted(s[2..], word + ['"'], true, true)
      else ReadQuoted(s[1..], word, true, false)
    else if s[0] == '"' then ReadQuoted(s[1..], word, true, true)
    else if s[0] == ' ' then
      var rest := ReadQuoted(s[1..], [], false, false);
      if begun && rest.Some? then Some([word] + rest.value) else rest
    else ReadQuoted(s[1..], word + [s[0]], true, false)
  }

  lemma {:induction false} ReadDoubled(path: string, rest: string, word: string)
    ensures ReadQuoted(Doubled(path) + "\" " + rest, word, true, true)
              == ReadQuoted(" " + rest, word + path, true, false)
  {
    var s := Doubled(path) + "\" " + rest;
    if path == [] {
      assert s[1..] == " " + rest && word + path == word;
    } else {
      var tail := Doubled(path[1..]) + "\" " + rest;
      assert s[if path[0] == '"' then 2 else 1..] == tail;
      ReadDoubled(path[1..], rest, word + [path[0]]);
      assert word + [path[0]] + path[1..] == word + path;
    }
  }

  lemma {:induction false} ReadPlain(path: string, rest: string, word: string, begun: bool)
    requires forall c <- path :: IsPlain(c)
    ensures ReadQuoted(path + " " + rest, word, begun, false)
              == ReadQuoted(" " + rest, word + path, begun || path != [], false)
  {
    if path == [] {
      assert path + " " + rest == " " + rest && word + path == word;
    } else {
      assert path[0] in path;
      assert (path + " " + rest)[1..] == path[1..] + " " + rest;
      ReadPlain(path[1..], rest, word + [path[0]], true);
      assert word + [path[0]] + path[1..] == word + path;
    }
  }

  /** Only an empty path is lost. */
  function NonEmpty(paths: seq<string>): seq<string> {
    if paths == [] then [] else (if paths[0] == [] then [] else [paths[0]]) + NonEmpty(paths[1..])
  }

  /** A blank outside quotes ends the word. */
  lemma ReadBlank(rest: string, word: string, begun: bool)
    ensures ReadQuoted(" " + rest, word, begun, false)
              == var after := ReadQuoted(rest, [], false, false);
                 if begun && after.Some? then Some([word] + after.value) else after
  {
    assert (" " + rest)[1..] == rest;
  }

  lemma ReadQuotedWord(path: string, rest: string)
    ensures ReadQuoted(Word(path, Windows) + rest, [], false, false)
              == var after := ReadQuoted(rest, [], false, false);
                 if path != [] && after.Some? then Some([path] + after.value) else after
  {
    hide ReadQuoted;
    assert [] + path == path;
    if forall c <- path :: IsPlain(c) {
      ReadPlain(path, rest, [], false);
      ReadBlank(rest, path, path != []);
    } else {
      OpenQuote(Doubled(path) + "\" " + rest);
      ReadDoubled(path, rest, []);
      ReadBlank(rest, path, true);
      assert Word(path, Windows) + rest == "\"" + (Doubled(path) + "\" " + rest);
    }
  }

  lemma OpenQuote(rest: string)
    ensures ReadQuoted("\"" + rest, [], false, false) == ReadQuoted(rest, [], true, true)
  {
    assert ("\"" + rest)[1..] == rest;
  }

  lemma {:induction false} ReadQuotedWords(paths: seq<string>)
    ensures ReadQuoted(Words(paths, Windows), [], false, false) == Some(NonEmpty(paths))
  {
    hide Word;
    if paths == [] {
    } else {
      ReadQuotedWord(paths[0], Words(paths[1..], Windows));
      ReadQuotedWords(paths[1..]);
      assert [] + NonEmpty(paths[1..]) == NonEmpty(paths[1..]);
    }
  }

  lemma {:induction false} NonEmptySame(paths: seq<string>)
    ensures |NonEmpty(paths)| <= |paths|
    ensures NonEmpty(paths) == paths <==> forall p <- paths :: p != []
  {
    if paths == [] {
    } else {
      var rest := paths[1..];
      NonEmptySame(rest);
      assert paths == [paths[0]] + rest;
      assert forall p :: p in paths <==> p == paths[0] || p in rest;
      assert paths[0] in paths;
      if paths[0] != [] {
        assert NonEmpty(paths)[1..] == NonEmpty(rest);
      } else {
        assert |NonEmpty(paths)| < |paths|;
      }
    }
  }

  /** As far as splitting and quotes go, the quoted dialect round-trips if and
      only if no path is empty. */
  lemma WindowsRoundTripIff(paths: seq<string>)
    ensures ReadQuoted(Words(paths, Windows), [], false, false) == Some(paths) <==> forall p <- paths :: p != []
  {
    ReadQuotedWords(paths);
    NonEmptySame(paths);
  }

  // ------------------------------------------------------------ what is left alone

  /** The characters the documentation promises to leave alone. */
  predicate IsDocumentedSafe(c: char) {
    c >= 128 as char || '0' <= c <= '9' || 'A' <= c <= 'Z' || 'a' <= c <= 'z' || c in "._/-+,:@=%"
  }

  lemma NeedsEscapeIff(c: char)
    ensures NeedsEscape(c as nat) <==> !IsDocumentedSafe(c)
  {
    assert "._/-+,:@=%" == ['.', '_', '/', '-', '+', ',', ':', '@', '=', '%'];
  }

  /** A path is typed as it is exactly when all its characters are of that set. */
  lemma {:induction false} TypedVerbatimIff(path: string)
    ensures |Escaped(path)| >= |path|
    ensures Escaped(path) == path <==> forall c <- path :: IsDocumentedSafe(c)
  {
    hide NeedsEscape, IsDocumentedSafe;
    if path == [] {
    } else {
      var rest := path[1..];
      NeedsEscapeIff(path[0]);
      TypedVerbatimIff(rest);
      assert path == [path[0]] + rest && path[0] in path;
      assert forall c :: c in path <==> c == path[0] || c in rest;
      if IsDocumentedSafe(path[0]) {
        assert Escaped(path)[1..] == Escaped(rest);
      } else {
        assert |Escaped(path)| == 2 + |Escaped(rest)|;
      }
    }
  }

  /** On Windows a path goes without quotes exactly when every character is of
      that set or a backslash. */
  lemma UnquotedIff(path: string)
    ensures Word(path, Windows) == path + " " <==> forall c <- path :: IsDocumentedSafe(c) || c == '\\'
  {
    hide NeedsEscape, IsDocumentedSafe;
    forall c | c in path
      ensures IsPlain(c) <==> IsDocumentedSafe(c) || c == '\\'
    {
      NeedsEscapeIff(c);
    }
    if !(forall c <- path :: IsPlain(c)) {
      DoubledLength(path);
      assert |Word(path, Windows)| > |path + " "|;
    }
  }

  lemma {:induction false} DoubledLength(path: string)
    ensures |Doubled(path)| >= |path|
  {
    if path == [] {
    } else {
      DoubledLength(path[1..]);
    }
  }
}
