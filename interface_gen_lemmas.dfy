/** Properties of the interface builder: Pascal case, the route split and
    the interface's imports and usings. */
module InterfaceGenLemmas {
  import opened Wrappers
  import opened Strings
  import opened OperationNodes
  import opened TypeSpecAst
  import opened CompilerEnvironment
  import opened ModelGen
  import opened OperationGen
  import opened InterfaceGen

  /** Joining the pieces with the separator gives the string back. */
  lemma {:induction false} SplitJoin(s: string, sep: char)
    ensures Join(Split(s, sep), [sep]) == s
    decreases |s|
  {
    if s != [] {
      var rest := Split(s[1..], sep);
      SplitJoin(s[1..], sep);
      if s[0] == sep {
        assert ([""] + rest)[1..] == rest;
        assert s == [sep] + s[1..];
      } else {
        var first := [s[0]] + rest[0];
        var pieces := [first] + rest[1..];
        assert pieces[1..] == rest[1..];
        if |rest| == 1 {
          assert s == [s[0]] + s[1..];
        } else {
          assert rest[1..][1..] == rest[2..];
          assert Join(rest, [sep]) == rest[0] + [sep] + Join(rest[1..], [sep]);
          assert s == [s[0]] + s[1..];
        }
      }
    }
  }

  /** No piece holds the separator, and every character of a piece comes
      from the string. */
  lemma {:induction false} SplitPieces(s: string, sep: char)
    ensures forall i :: 0 <= i < |Split(s, sep)| ==> sep !in Split(s, sep)[i]
    ensures forall i, x :: 0 <= i < |Split(s, sep)| && x in Split(s, sep)[i] ==> x in s
    decreases |s|
  {
    if s != [] {
      SplitPieces(s[1..], sep);
      var rest := Split(s[1..], sep);
      var r := Split(s, sep);
      forall i, x | 0 <= i < |r| && x in r[i]
        ensures x in s
      {
        if s[0] == sep {
          assert i > 0 && r[i] == rest[i - 1];
        } else if i == 0 {
          assert x == s[0] || x in rest[0];
        } else {
          assert r[i] == rest[i];
        }
        assert x in s[1..] || x == s[0];
      }
    }
  }

  /** Raising the characters after underscores keeps every character
      that is not an upper-case letter from the input. */
  lemma {:induction false} RaiseChars(t: string, x: char)
    requires !('A' <= x <= 'Z')
    requires x in RaiseAfterUnderscores(t)
    ensures x in t
    decreases |t|
  {
    if |t| >= 2 && t[0] == '_' && IsWordChar(t[1]) {
      if x != AsciiUpper(t[1]) {
        RaiseChars(t[2..], x);
      }
    } else if t != [] && x != t[0] {
      RaiseChars(t[1..], x);
    }
  }

  /** Without underscores nothing is raised. */
  lemma {:induction false} RaiseNothing(t: string)
    requires '_' !in t
    ensures RaiseAfterUnderscores(t) == t
    decreases |t|
  {
    if t != [] {
      RaiseNothing(t[1..]);
    }
  }

  /** The string `to_pascal_case` scans: the input without braces. */
  lemma Unbraced(s: string)
    ensures ReplaceAll(ReplaceAll(s, "{", ""), "}", "") == Without(Without(s, '{'), '}')
  {
    ReplaceCharByNothing(s, '{');
    ReplaceCharByNothing(ReplaceAll(s, "{", ""), '}');
  }

  /** A Pascal-case name has no braces, and every character of it that is
      not an upper-case letter comes from the input. */
  lemma PascalChars(s: string, x: char)
    requires !('A' <= x <= 'Z')
    requires x in ToPascalCase(s)
    ensures x in s && x != '{' && x != '}'
  {
    Unbraced(s);
    var t := Without(Without(s, '{'), '}');
    if t != [] && IsWordChar(t[0]) {
      if x != AsciiUpper(t[0]) {
        RaiseChars(t[1..], x);
      }
    } else {
      RaiseChars(t, x);
    }
  }

  /** The first brace-free character, when it is a lower-case letter,
      comes out upper-cased. */
  lemma PascalFirst(s: string)
    requires var t := Without(Without(s, '{'), '}'); t != [] && 'a' <= t[0] <= 'z'
    ensures |ToPascalCase(s)| > 0
    ensures ToPascalCase(s)[0] == AsciiUpper(Without(Without(s, '{'), '}')[0])
  {
    Unbraced(s);
  }

  /** An underscore followed by a word character turns into that
      character upper-cased. */
  lemma PascalUnderscore(c: char, t: string)
    requires IsWordChar(c)
    ensures RaiseAfterUnderscores(['_', c] + t) == [AsciiUpper(c)] + RaiseAfterUnderscores(t)
  {
    assert (['_', c] + t)[2..] == t;
  }

  /** Without underscores, only the first character changes. */
  lemma PascalWithoutUnderscores(s: string)
    requires '_' !in s
    ensures var t := Without(Without(s, '{'), '}');
      ToPascalCase(s) == if t != [] && IsWordChar(t[0]) then [AsciiUpper(t[0])] + t[1..] else t
  {
    Unbraced(s);
    var t := Without(Without(s, '{'), '}');
    RaiseNothing(t);
    if t != [] {
      RaiseNothing(t[1..]);
    }
  }

  /** A character of a concatenation comes from one of the parts. */
  lemma {:induction false} JoinChars(parts: seq<string>, x: char)
    requires x in Join(parts, "")
    ensures exists i :: 0 <= i < |parts| && x in parts[i]
    decreases |parts|
  {
    if |parts| > 1 {
      if x !in parts[0] {
        assert x in Join(parts[1..], "");
        JoinChars(parts[1..], x);
        var i :| 0 <= i < |parts[1..]| && x in parts[1..][i];
        assert x in parts[i + 1];
      }
    }
  }

  /** An interface name has no slash and no brace, and every character of
      it that is not an upper-case letter comes from the route after its
      first character. */
  lemma InterfaceNameChars(route: string, x: char)
    requires |route| > 0
    requires !('A' <= x <= 'Z')
    requires x in InterfaceName(route)
    ensures x in route[1..] && x != '/' && x != '{' && x != '}'
  {
    var pieces := Split(route[1..], '/');
    var names := seq(|pieces|, i requires 0 <= i < |pieces| => ToPascalCase(pieces[i]));
    JoinChars(names, x);
    var i :| 0 <= i < |names| && x in names[i];
    PascalChars(pieces[i], x);
    SplitPieces(route[1..], '/');
  }

  /** A wrapped interface imports the http library first, for its route
      decorator, and uses only the http namespace. */
  lemma WrappedInterfaceLibraries(operations: seq<OperationNode>, currentFileName: string, env: CompilerEnv, currentFile: string, ops: RelPathOps)
    requires BuildWrappedInterface(operations, currentFileName, env).Ok?
    ensures var iface := BuildWrappedInterface(operations, currentFileName, env).value.contents[0].interface;
      && DecoratorUsings(iface.decorators) == [UsingNamespace(HTTP_NAMESPACE)]
      && (InterfaceImports(iface, currentFile, env, ops).Ok? ==>
            |InterfaceImports(iface, currentFile, env, ops).value| > 0 &&
            InterfaceImports(iface, currentFile, env, ops).value[0] == ImportLib(HTTP_LIB))
  {
    var iface := BuildWrappedInterface(operations, currentFileName, env).value.contents[0].interface;
    var route := env.pathFileMap[ReplaceAll(currentFileName, ".tsp", ".yaml")];
    RoutedInterfaceLibraries(iface, route, currentFile, env, ops);
  }

  /** An interface decorated with its route alone imports the http library
      first and uses only the http namespace. */
  lemma RoutedInterfaceLibraries(iface: TsInterface, route: string, currentFile: string, env: CompilerEnv, ops: RelPathOps)
    requires iface.decorators == [RouteDecorator(route)]
    ensures DecoratorUsings(iface.decorators) == [UsingNamespace(HTTP_NAMESPACE)]
    ensures InterfaceImports(iface, currentFile, env, ops).Ok? ==>
      |InterfaceImports(iface, currentFile, env, ops).value| > 0 &&
      InterfaceImports(iface, currentFile, env, ops).value[0] == ImportLib(HTTP_LIB)
  {
    RouteLibraries(route);
  }

  /** The route decorator needs the http library and uses its namespace. */
  lemma RouteLibraries(route: string)
    ensures DecoratorLibs([RouteDecorator(route)]) == [ImportLib(HTTP_LIB)]
    ensures DecoratorUsings([RouteDecorator(route)]) == [UsingNamespace(HTTP_NAMESPACE)]
  {
    assert [RouteDecorator(route)][..0] == [];
  }

  /** A string in which a character does not occur keeps it all. */
  lemma {:induction false} WithoutAbsent(s: string, c: char)
    requires c !in s
    ensures Without(s, c) == s
    decreases |s|
  {
    if s != [] {
      WithoutAbsent(s[1..], c);
      assert s == [s[0]] + s[1..];
    }
  }

  /** Without braces, only the leading character and the underscores
      matter. */
  lemma PascalBraceFree(s: string)
    requires '{' !in s && '}' !in s
    ensures ToPascalCase(s) ==
      if s != [] && IsWordChar(s[0]) then (if s[0] == '_' then [] else [AsciiUpper(s[0])]) + RaiseAfterUnderscores(s[1..])
      else RaiseAfterUnderscores(s)
  {
    Unbraced(s);
    WithoutAbsent(s, '{');
    WithoutAbsent(s, '}');
  }

  /** Two underscores in a row: the first is followed by a word character
      (the second underscore), so the pair is replaced by that character
      raised, which is `_` itself. The first underscore is dropped, the
      second is kept, and the letter after it is not raised ("a__b"
      becomes "A_b"). */
  lemma PascalOfDoubleUnderscore(s: string)
    requires |s| >= 3 && 'a' <= s[0] <= 'z' && s[1] == '_' && s[2] == '_'
    requires '{' !in s && '}' !in s
    ensures ToPascalCase(s) == [AsciiUpper(s[0]), '_'] + RaiseAfterUnderscores(s[3..])
  {
    PascalBraceFree(s);
    assert s[1..][2..] == s[3..];
    assert [AsciiUpper(s[0])] + (['_'] + RaiseAfterUnderscores(s[3..])) == [AsciiUpper(s[0]), '_'] + RaiseAfterUnderscores(s[3..]);
  }
}
