/** The database URL on its way into warpgate.yaml: quoting, and the one line that carries it. */
module YamlQuote {
  import opened Base
  import opened Instance

  /** The sed expression that doubles every single quote. */
  function Quote(s: string): string {
    if s == [] then [] else (if s[0] == '\'' then "''" else [s[0]]) + Quote(s[1..])
  }

  /**
   * A single-quoted scalar after its opening quote (section 7.3.2 of YAML 1.2.2): a doubled quote
   * stands for one, a lone quote closes. The content and what follows, or nothing if it never closes.
   */
  function Unquote(s: string): Option<(string, string)> {
    if s == [] then None
    else if s[0] != '\'' then
      match Unquote(s[1..])
      case Some((text, rest)) => Some(([s[0]] + text, rest))
      case None => None
    else if |s| > 1 && s[1] == '\'' then
      match Unquote(s[2..])
      case Some((text, rest)) => Some(("'" + text, rest))
      case None => None
    else Some(("", s[1..]))
  }

  /** The quoted text reads back to itself, and closes at the closing quote and no earlier. */
  lemma {:induction false} QuoteRoundTrip(s: string, rest: string)
    requires rest == [] || rest[0] != '\''
    ensures Unquote(Quote(s) + "'" + rest) == Some((s, rest))
  {
    var t := Quote(s) + "'" + rest;
    if s == [] {
      assert t == "'" + rest && t[1..] == rest;
    } else if s[0] == '\'' {
      assert t == "''" + (Quote(s[1..]) + "'" + rest);
      assert t[2..] == Quote(s[1..]) + "'" + rest;
      QuoteRoundTrip(s[1..], rest);
      assert s == "'" + s[1..];
    } else {
      assert t == [s[0]] + (Quote(s[1..]) + "'" + rest);
      assert t[1..] == Quote(s[1..]) + "'" + rest;
      QuoteRoundTrip(s[1..], rest);
      assert s == [s[0]] + s[1..];
    }
  }

  /** And nothing else reads back to a text: what is read is its doubled form up to a lone quote. */
  lemma {:induction false} UnquoteIsOfQuoted(t: string)
    ensures Unquote(t).Some? ==>
              var (s, rest) := Unquote(t).value;
              t == Quote(s) + "'" + rest && (rest == [] || rest[0] != '\'')
  {
    if t != [] && t[0] != '\'' {
      UnquoteIsOfQuoted(t[1..]);
    } else if |t| > 1 && t[1] == '\'' {
      UnquoteIsOfQuoted(t[2..]);
      if Unquote(t).Some? {
        var (s, rest) := Unquote(t).value;
        assert s[1..] == Unquote(t[2..]).value.0 && t == "''" + t[2..];
      }
    }
  }

  // ---- Lines ----

  /** Where the first line ends: after its newline, or at the end of the text. */
  function LineEnd(text: string): (e: nat)
    requires text != ""
    ensures 0 < e <= |text| && '\n' !in text[..e - 1] && (text[e - 1] == '\n' || e == |text|)
  {
    if text[0] == '\n' || |text| == 1 then 1
    else
      var e := 1 + LineEnd(text[1..]);
      assert text[..e - 1] == [text[0]] + text[1..][..e - 2];
      e
  }

  /** The lines of a text, each with its newline; the last may lack one. */
  function Lines(text: string): seq<string>
    decreases |text|
  {
    if text == "" then [] else [text[..LineEnd(text)]] + Lines(text[LineEnd(text)..])
  }

  function Concat(lines: seq<string>): string {
    if lines == [] then "" else lines[0] + Concat(lines[1..])
  }

  predicate EndsLine(text: string) {
    text == "" || text[|text| - 1] == '\n'
  }

  predicate IsLine(line: string) {
    line != "" && line[|line| - 1] == '\n' && '\n' !in line[..|line| - 1]
  }

  const DatabaseKey := "database_url:"

  predicate IsDatabaseLine(line: string) {
    DatabaseKey <= line
  }

  /** The sed command that deletes the lines with the key. */
  function WithoutDatabase(lines: seq<string>): seq<string> {
    if lines == [] then []
    else (if IsDatabaseLine(lines[0]) then [] else [lines[0]]) + WithoutDatabase(lines[1..])
  }

  function Count(lines: seq<string>): nat {
    if lines == [] then 0 else (if IsDatabaseLine(lines[0]) then 1 else 0) + Count(lines[1..])
  }

  function DatabaseLine(url: string): string {
    DatabaseKey + " '" + Quote(url) + "'\n"
  }

  /** The file after both commands of the init script: delete the key's lines, append a fresh one. */
  function Finished(config: string, url: string): string {
    Concat(WithoutDatabase(Lines(config))) + DatabaseLine(url)
  }

  lemma {:induction false} LinesAreLines(text: string)
    requires EndsLine(text)
    ensures forall l :: l in Lines(text) ==> IsLine(l)
    decreases |text|
  {
    if text != "" {
      LinesAreLines(text[LineEnd(text)..]);
    }
  }

  lemma FirstLine(line: string, rest: string)
    requires IsLine(line)
    ensures LineEnd(line + rest) == |line|
    ensures Lines(line + rest) == [line] + Lines(rest)
  {
    var t, n := line + rest, |line|;
    var e := LineEnd(t);
    assert t[n - 1] == '\n';
    assert t[..n] == line && t[n..] == rest;
  }

  lemma {:induction false} LinesOfConcat(lines: seq<string>)
    requires forall l :: l in lines ==> IsLine(l)
    ensures Lines(Concat(lines)) == lines
  {
    if lines != [] {
      assert lines[0] in lines;
      LinesOfConcat(lines[1..]);
      FirstLine(lines[0], Concat(lines[1..]));
      hide Lines, IsLine;
      assert lines == [lines[0]] + lines[1..];
    }
  }

  lemma {:induction false} ConcatAppend(lines: seq<string>, last: string)
    ensures Concat(lines + [last]) == Concat(lines) + last
  {
    if lines == [] {
      assert lines + [last] == [last] && [last][1..] == [];
    } else {
      assert (lines + [last])[1..] == lines[1..] + [last];
      ConcatAppend(lines[1..], last);
    }
  }

  lemma {:induction false} WithoutDatabaseHasNone(lines: seq<string>)
    ensures Count(WithoutDatabase(lines)) == 0
    ensures forall l :: l in WithoutDatabase(lines) ==> l in lines
  {
    if lines != [] {
      WithoutDatabaseHasNone(lines[1..]);
      var t := WithoutDatabase(lines[1..]);
      assert ([lines[0]] + t)[1..] == t && [] + t == t;
    }
  }

  lemma {:induction false} CountAppend(lines: seq<string>, last: string)
    ensures Count(lines + [last]) == Count(lines) + (if IsDatabaseLine(last) then 1 else 0)
  {
    if lines == [] {
      assert lines + [last] == [last] && [last][1..] == [];
    } else {
      assert (lines + [last])[1..] == lines[1..] + [last];
      CountAppend(lines[1..], last);
    }
  }

  lemma {:induction false} QuoteAddsNoNewline(s: string)
    ensures '\n' in Quote(s) <==> '\n' in s
  {
    if s != [] {
      QuoteAddsNoNewline(s[1..]);
      assert s == [s[0]] + s[1..];
    }
  }

  lemma KeyIsPlain()
    ensures '\n' !in DatabaseKey && '\'' !in DatabaseKey
  {
  }

  lemma DatabaseLineIsOne(url: string)
    requires '\n' !in url
    ensures IsLine(DatabaseLine(url)) && IsDatabaseLine(DatabaseLine(url))
    ensures Unquote(DatabaseLine(url)[|DatabaseKey| + 2..]) == Some((url, "\n"))
  {
    QuoteAddsNoNewline(url);
    QuoteRoundTrip(url, "\n");
    KeyIsPlain();
    hide DatabaseKey, Quote, Unquote;
    var l := DatabaseLine(url);
    assert l[..|l| - 1] == DatabaseKey + " '" + Quote(url) + "'";
    assert l[|DatabaseKey| + 2..] == Quote(url) + "'" + "\n";
  }

  /**
   * For every newline-free URL and every configuration whose last line is complete, the finished
   * file has exactly one line with the key, the last one; its scalar reads back to the URL and ends
   * with the line; all other lines are those of the configuration.
   */
  lemma ExactlyOneDatabaseLine(config: string, url: string)
    requires EndsLine(config) && '\n' !in url
    ensures var lines := Lines(Finished(config, url));
            && lines == WithoutDatabase(Lines(config)) + [DatabaseLine(url)] && Count(lines) == 1
            && Unquote(DatabaseLine(url)[|DatabaseKey| + 2..]) == Some((url, "\n"))
  {
    var kept, last := WithoutDatabase(Lines(config)), DatabaseLine(url);
    LinesAreLines(config);
    WithoutDatabaseHasNone(Lines(config));
    DatabaseLineIsOne(url);
    ConcatAppend(kept, last);
    CountAppend(kept, last);
    hide IsLine, DatabaseLine, Lines, IsDatabaseLine, Unquote;
    LinesOfConcat(kept + [last]);
  }

  /** An unfinished last line would swallow the key: then no line carries it. */
  lemma UnfinishedLineSwallowsTheKey(url: string)
    requires '\n' !in url
    ensures Count(Lines(Finished("x", url))) == 0
  {
    DatabaseLineIsOne(url);
    var l := "x" + DatabaseLine(url);
    assert "x"[..LineEnd("x")] == "x" && Lines("x") == ["x"];
    assert WithoutDatabase(["x"]) == ["x"] by {
      assert WithoutDatabase([]) == [] && ["x"][1..] == [];
    }
    assert ["x"][1..] == [] && Concat(["x"]) == "x" + "";
    assert Finished("x", url) == l + "";
    assert l[..|l| - 1] == "x" + DatabaseLine(url)[..|DatabaseLine(url)| - 1];
    FirstLine(l, "");
    assert l[0] == 'x' && Lines("") == [] && [l][1..] == [];
    assert !IsDatabaseLine(l) by {
      assert DatabaseKey[0] == 'd';
    }
    assert Lines(Finished("x", url)) == [l];
  }

  lemma BlocksEndLine(s: Spec, marshal: string -> string)
    requires s.externalHost != "" ==> EndsLine(marshal(s.externalHost))
    requires EndsLine(s.vault)
    ensures EndsLine(BuildConfig(s, marshal))
  {
    hide TlsBlock, ListenLine, Enabled, PortOf, ExternalDatabase;
    ListenLineEnds(HttpPort(s));
    BlockEnds("ssh", SshEnabled(s), SshPort(s), false);
    TlsBlockEnds("mysql", MysqlEnabled(s), MysqlPort(s));
    TlsBlockEnds("postgres", PgEnabled(s), PgPort(s));
    TlsBlockEnds("kubernetes", KubernetesEnabled(s), KubernetesPort(s));
  }

  lemma ListenLineEnds(port: int)
    ensures EndsLine(ListenLine(port))
  {
  }

  lemma BlockEnds(name: string, enabled: bool, port: int, tls: bool)
    ensures EndsLine(ListenerBlock(name, enabled, port, tls)) && ListenerBlock(name, enabled, port, tls) != ""
  {
    ListenLineEnds(port);
  }

  lemma TlsBlockEnds(name: string, enabled: bool, port: int)
    ensures EndsLine(TlsBlock(name, enabled, port))
  {
    BlockEnds(name, true, port, true);
  }

  /** So it is for the generated configuration of every instance with an external database and no override. */
  lemma GeneratedConfigHasOne(s: Spec, marshal: string -> string, url: string)
    requires ExternalDatabase(s) && '\n' !in url
    requires (s.externalHost != "" ==> EndsLine(marshal(s.externalHost))) && EndsLine(s.vault)
    ensures Count(Lines(Finished(BuildConfig(s, marshal), url))) == 1
  {
    BlocksEndLine(s, marshal);
    ExactlyOneDatabaseLine(BuildConfig(s, marshal), url);
  }

  lemma BrokenLine(a: string, b: string)
    requires '\n' !in a && '\'' !in a && '\'' !in b
    ensures Finished("", a + "\n" + DatabaseKey + b) == (DatabaseKey + " '" + a + "\n") + (DatabaseKey + b + "'\n")
  {
    KeyIsPlain();
    hide DatabaseKey;
    NoQuotes(a + "\n" + DatabaseKey + b);
    hide Quote;
    assert Lines("") == [] && WithoutDatabase([]) == [] && Concat([]) == "";
  }

  /** A newline in the URL breaks it: the quoted text reaches into a further line, which may carry the key again. */
  lemma NewlineBreaksTheLine(a: string, b: string)
    requires '\n' !in a && '\n' !in b && '\'' !in a && '\'' !in b
    ensures Count(Lines(Finished("", a + "\n" + DatabaseKey + b))) == 2
  {
    var first, second := DatabaseKey + " '" + a + "\n", DatabaseKey + b + "'\n";
    BrokenLine(a, b);
    KeyIsPlain();
    hide DatabaseKey, Finished;
    assert first[..|first| - 1] == DatabaseKey + " '" + a && second[..|second| - 1] == DatabaseKey + b + "'";
    FirstLine(first, second);
    FirstLine(second, "");
    assert second + "" == second && Lines("") == [];
    hide Lines, IsLine;
    TwoKeys(first, second);
  }

  lemma TwoKeys(a: string, b: string)
    requires IsDatabaseLine(a) && IsDatabaseLine(b)
    ensures Count([a] + ([b] + [])) == 2
  {
    hide IsDatabaseLine;
    var l := [a] + ([b] + []);
    assert l[0] == a && l[1..] == [b] && [b][1..] == [];
    assert Count([b]) == 1;
  }

  lemma {:induction false} NoQuotes(s: string)
    requires '\'' !in s
    ensures Quote(s) == s
  {
    if s != [] {
      NoQuotes(s[1..]);
      assert s == [s[0]] + s[1..];
    }
  }
}
