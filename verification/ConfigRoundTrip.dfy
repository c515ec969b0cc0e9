/** Exactly which configurations survive Write followed by Load. */
module ConfigRoundTrip {
  import opened Credits
  import opened NodeConfig
  import opened Text

  // ---- Trimming ----

  predicate Tight(s: string, p: char -> bool) {
    s == [] || (!p(s[0]) && !p(s[|s| - 1]))
  }

  lemma {:induction false} TrimRightShape(s: string, p: char -> bool)
    ensures TrimRight(s, p) <= s
    ensures TrimRight(s, p) == [] || !p(TrimRight(s, p)[|TrimRight(s, p)| - 1])
  {
    if s != [] && p(s[|s| - 1]) {
      TrimRightShape(s[..|s| - 1], p);
    }
  }

  lemma {:induction false} TrimLeftShape(s: string, p: char -> bool)
    ensures |TrimLeft(s, p)| <= |s|
    ensures TrimLeft(s, p) == [] || !p(TrimLeft(s, p)[0])
  {
    if s != [] && p(s[0]) {
      TrimLeftShape(s[1..], p);
    }
  }

  /** Trim leaves a string alone if and only if it neither starts nor ends in the cut set. */
  lemma TrimFixes(s: string, p: char -> bool)
    ensures Trim(s, p) == s <==> Tight(s, p)
  {
    TrimLeftShape(s, p);
    TrimRightShape(TrimLeft(s, p), p);
  }

  /** Characters of the cut set added on both sides go away again. */
  lemma TrimWrapped(a: char, s: string, b: char, p: char -> bool)
    requires p(a) && p(b)
    ensures Trim([a] + s + [b], p) == Trim(s, p)
  {
    assert ([a] + s + [b])[1..] == s + [b];
    TrimLeftAppend(s, b, p);
  }

  lemma {:induction false} TrimLeftAppend(s: string, b: char, p: char -> bool)
    requires p(b)
    ensures TrimRight(TrimLeft(s + [b], p), p) == TrimRight(TrimLeft(s, p), p)
  {
    if s == [] {
      assert s + [b] == [b];
      assert [b][1..] == [];
    } else if p(s[0]) {
      assert (s + [b])[1..] == s[1..] + [b];
      TrimLeftAppend(s[1..], b, p);
    } else {
      assert (s + [b])[..|s|] == s;
    }
  }

  lemma TrimSpaceAfter(s: string)
    requires s != [] && Tight(s, IsSpace)
    ensures TrimSpace(" " + s) == s
    ensures TrimSpace("  " + s) == s
  {
    TrimFixes(s, IsSpace);
    assert (" " + s)[1..] == s;
    assert ("  " + s)[1..] == " " + s;
  }

  // ---- Escaping ----

  function Count(s: string, c: char): nat {
    if s == [] then 0 else Count(s[..|s| - 1], c) + if s[|s| - 1] == c then 1 else 0
  }

  predicate NoEscapes(s: string) {
    forall k :: 0 <= k < |s| ==> s[k] != '"' && s[k] != '\\'
  }

  lemma {:induction false} EscapePlain(s: string)
    requires NoEscapes(s)
    ensures Escape(s) == s
  {
    if s != [] {
      EscapePlain(s[..|s| - 1]);
      assert s == s[..|s| - 1] + [s[|s| - 1]];
    }
  }

  lemma {:induction false} CountAppend(s: string, t: string, c: char)
    ensures Count(s + t, c) == Count(s, c) + Count(t, c)
  {
    if t == [] {
      assert s + t == s;
    } else {
      assert (s + t)[..|s + t| - 1] == s + t[..|t| - 1];
      CountAppend(s, t[..|t| - 1], c);
    }
  }

  lemma {:induction false} CountZero(s: string, c: char)
    ensures Count(s, c) == 0 <==> c !in s
  {
    if s != [] {
      CountZero(s[..|s| - 1], c);
      assert s == s[..|s| - 1] + [s[|s| - 1]];
    }
  }

  /** Escaping adds one backslash per escaped character. */
  lemma {:induction false} EscapeAddsBackslashes(s: string)
    ensures Count(Escape(s), '\\') == 2 * Count(s, '\\') + Count(s, '"')
  {
    if s != [] {
      var c := s[|s| - 1];
      EscapeAddsBackslashes(s[..|s| - 1]);
      CountAppend(Escape(s[..|s| - 1]), EscapeChar(c), '\\');
      CountChar(c);
    }
  }

  lemma CountChar(c: char)
    ensures Count(EscapeChar(c), '\\') == (if c == '\\' then 2 else if c == '"' then 1 else 0)
  {
    assert EscapeChar(c)[..|EscapeChar(c)| - 1] == if |EscapeChar(c)| == 2 then ['\\'] else [];
    assert ['\\'][..0] == [];
  }

  /** Trimming quotes removes no backslash. */
  lemma {:induction false} TrimLeftKeepsBackslashes(s: string)
    ensures Count(TrimLeft(s, IsQuote), '\\') == Count(s, '\\')
  {
    if s != [] && IsQuote(s[0]) {
      assert s == [s[0]] + s[1..];
      CountAppend([s[0]], s[1..], '\\');
      assert [s[0]][..0] == [];
      TrimLeftKeepsBackslashes(s[1..]);
    }
  }

  lemma {:induction false} TrimRightKeepsBackslashes(s: string)
    ensures Count(TrimRight(s, IsQuote), '\\') == Count(s, '\\')
  {
    if s != [] && IsQuote(s[|s| - 1]) {
      TrimRightKeepsBackslashes(s[..|s| - 1]);
    }
  }

  /** The values that come back: no quote or backslash anywhere, no apostrophe at either end. */
  predicate Plain(s: string) {
    NoEscapes(s) && (s == [] || (s[0] != '\'' && s[|s| - 1] != '\''))
  }

  /** What Load makes of a printed value is that value if and only if it is plain. */
  lemma ValueReturns(s: string)
    ensures Unquote(Quoted(s)) == s <==> Plain(s)
  {
    TrimWrapped('"', Escape(s), '"', IsQuote);
    assert Quoted(s) == ['"'] + Escape(s) + ['"'];
    if NoEscapes(s) {
      EscapePlain(s);
      TrimFixes(s, IsQuote);
    } else {
      EscapeAddsBackslashes(s);
      TrimLeftKeepsBackslashes(Escape(s));
      TrimRightKeepsBackslashes(TrimLeft(Escape(s), IsQuote));
      CountZero(s, '\\');
      CountZero(s, '"');
    }
  }

  // ---- Numbers ----

  lemma {:induction false} DigitsReturn(n: nat)
    ensures Digits(n) != [] && AllDigits(Digits(n)) && DigitsValue(Digits(n)) == n
  {
    if n < 10 {
      assert Digits(n)[..0] == [];
    } else {
      DigitsReturn(n / 10);
      assert Digits(n)[..|Digits(n)| - 1] == Digits(n / 10);
    }
  }

  lemma AtoiItoa(n: int)
    requires IsInt64(n)
    ensures Atoi(Itoa(n)) == n
  {
    if n < 0 {
      DigitsReturn(-n);
      assert Itoa(n)[1..] == Digits(-n);
    } else {
      DigitsReturn(n);
      assert '0' <= Digits(n)[0] <= '9';
    }
  }

  /** A printed number is read with its sign, or the nearest bound of the 64-bit range, */
  lemma AtoiReads(n: nat)
    ensures Atoi(Digits(n)) == if n <= 0x7fff_ffff_ffff_ffff then n else 0x7fff_ffff_ffff_ffff
    ensures Atoi("+" + Digits(n)) == Atoi(Digits(n))
    ensures Atoi("-" + Digits(n)) == if n <= 0x8000_0000_0000_0000 then 0 - n else 0 - 0x8000_0000_0000_0000
  {
    DigitsReturn(n);
    hide Digits;
    AtoiOfDigits(Digits(n), n);
  }

  lemma AtoiOfDigits(d: string, n: nat)
    requires d != [] && AllDigits(d) && DigitsValue(d) == n
    ensures Atoi(d) == Clamp(n) && Atoi("+" + d) == Clamp(n) && Atoi("-" + d) == Clamp(0 - n)
  {
    hide DigitsValue, Clamp;
    assert '0' <= d[0] <= '9';
    assert ("+" + d)[1..] == d && ("-" + d)[1..] == d;
  }

  /** and anything with another character as zero. */
  lemma AtoiRefuses(s: string, k: nat)
    requires k < |s| && !('0' <= s[k] <= '9') && (k > 0 || (s[0] != '+' && s[0] != '-') || |s| == 1)
    ensures Atoi(s) == 0
  {
    if k > 0 {
      assert s[1..][k - 1] == s[k];
    }
  }

  lemma ItoaTight(n: int)
    ensures Itoa(n) != [] && Tight(Itoa(n), IsSpace) && Tight(Itoa(n), IsQuote)
  {
    DigitsReturn(if n < 0 then -n else n);
  }

  // ---- One line ----

  predicate NoColon(s: string) {
    forall k :: 0 <= k < |s| ==> s[k] != ':'
  }

  predicate IsKey(key: string) {
    key != [] && Tight(key, IsSpace) && key[0] != '#' && key[0] != '-' && NoColon(key)
  }

  lemma {:induction false} ColonAfter(key: string, rest: string)
    requires NoColon(key)
    ensures Colon(key + ":" + rest) == |key|
  {
    if key == [] {
      assert key + ":" + rest == ":" + rest;
    } else {
      assert (key + ":" + rest)[1..] == key[1..] + ":" + rest;
      ColonAfter(key[1..], rest);
    }
  }

  /** A printed field is read as its key and its unquoted body. */
  lemma FieldRead(st: Loading, key: string, body: string)
    requires IsKey(key) && key != "allowed_model_slugs"
    requires body != [] && Tight(body, IsSpace)
    ensures LoadLine(st, FieldLine(key, body)) == Loading(Assign(st.cfg, key, Unquote(body)), false)
  {
    hide Assign, Unquote;
    var line := FieldLine(key, body);
    assert line == key + ":" + (" " + body);
    assert line[0] == key[0] && line[|line| - 1] == body[|body| - 1];
    TrimFixes(line, IsSpace);
    ColonAfter(key, " " + body);
    assert line[..|key|] == key && line[|key| + 1..] == " " + body;
    TrimFixes(key, IsSpace);
    TrimSpaceAfter(body);
  }

  /** The lines Write prints start with proper keys. */
  lemma KeysAreKeys()
    ensures IsKey("server_url") && IsKey("provider_token") && IsKey("provider_name") && IsKey("instance_key")
    ensures IsKey("ollama_url") && IsKey("log_level") && IsKey("allow_auto_model_pull")
    ensures IsKey("max_concurrent_jobs") && IsKey("heartbeat_interval_seconds") && IsKey("allowed_model_slugs")
  {
    hide IsKey;
    ShortKeysAreKeys();
    MiddleKeysAreKeys();
    LongKeysAreKeys();
  }

  lemma ShortKeysAreKeys()
    ensures IsKey("server_url") && IsKey("provider_token") && IsKey("provider_name") && IsKey("log_level")
  {
  }

  lemma MiddleKeysAreKeys()
    ensures IsKey("instance_key") && IsKey("ollama_url") && IsKey("allow_auto_model_pull")
  {
  }

  lemma LongKeysAreKeys()
    ensures IsKey("max_concurrent_jobs") && IsKey("heartbeat_interval_seconds") && IsKey("allowed_model_slugs")
  {
  }

  /** A key without a value. */
  lemma BareKeyRead(key: string)
    requires IsKey(key)
    ensures TrimSpace(key + ":") == key + ":" && Colon(key + ":") == |key| && TrimSpace(key) == key
  {
    var line := key + ":";
    assert line == key + ":" + "";
    ColonAfter(key, "");
    TrimFixes(line, IsSpace);
    TrimFixes(key, IsSpace);
  }

  lemma ListStartRead(st: Loading)
    ensures LoadLine(st, "allowed_model_slugs:") == st.(inAllowed := true)
  {
    hide TrimSpace, Colon, Unquote, Assign, IsKey;
    var key := "allowed_model_slugs";
    KeysAreKeys();
    BareKeyRead(key);
    var line := key + ":";
    assert line == "allowed_model_slugs:";
    assert line[..|key|] == key;
  }

  lemma SlugRead(st: Loading, slug: string)
    requires st.inAllowed
    ensures LoadLine(st, SlugLine(slug)) ==
            st.(cfg := st.cfg.(allowedModelSlugs := st.cfg.allowedModelSlugs + [Unquote(Quoted(slug))]))
  {
    hide Unquote;
    var line := "- " + Quoted(slug);
    assert SlugLine(slug) == "  " + line;
    TrimSpaceAfter(line);
    assert line[1..] == " " + Quoted(slug);
    TrimSpaceAfter(Quoted(slug));
  }

  // ---- The whole file ----

  /** What Load returns for the file of c: every string goes through printing and unquoting. */
  function Unquoted(slugs: seq<string>): seq<string> {
    if slugs == [] then [] else Unquoted(slugs[..|slugs| - 1]) + [Unquote(Quoted(slugs[|slugs| - 1]))]
  }

  function Reread(c: Config): Config {
    c.(serverURL := Unquote(Quoted(c.serverURL)),
       providerToken := Unquote(Quoted(c.providerToken)),
       providerName := Unquote(Quoted(c.providerName)),
       instanceKey := Unquote(Quoted(c.instanceKey)),
       ollamaURL := Unquote(Quoted(c.ollamaURL)),
       logLevel := Unquote(Quoted(c.logLevel)),
       allowedModelSlugs := Unquoted(c.allowedModelSlugs))
  }

  lemma {:induction false} LoadLinesAppend(st: Loading, p: seq<string>, q: seq<string>)
    ensures LoadLines(st, p + q) == LoadLines(LoadLines(st, p), q)
  {
    hide LoadLine;
    if q == [] {
      assert p + q == p;
    } else {
      assert (p + q)[..|p + q| - 1] == p + q[..|q| - 1];
      LoadLinesAppend(st, p, q[..|q| - 1]);
    }
  }

  lemma LoadOne(st: Loading, line: string)
    ensures LoadLines(st, [line]) == LoadLine(st, line)
  {
    hide LoadLine;
    assert [line][..0] == [];
  }

  /** The string fields, up to the first field that is not a string. */
  lemma StringFieldsRead(st: Loading, c: Config)
    ensures LoadLines(st, HeadLines(c)[..5]) ==
            Loading(st.cfg.(serverURL := Unquote(Quoted(c.serverURL)),
                            providerToken := Unquote(Quoted(c.providerToken)),
                            providerName := Unquote(Quoted(c.providerName)),
                            instanceKey := Unquote(Quoted(c.instanceKey)),
                            ollamaURL := Unquote(Quoted(c.ollamaURL))), false)
  {
    hide LoadLine, Unquote, Quoted, IsKey;
    KeysAreKeys();
    var h := HeadLines(c);
    var s1 := ReadField(st, "server_url", c.serverURL);
    var s2 := ReadField(s1, "provider_token", c.providerToken);
    var s3 := ReadField(s2, "provider_name", c.providerName);
    var s4 := ReadField(s3, "instance_key", c.instanceKey);
    var s5 := ReadField(s4, "ollama_url", c.ollamaURL);
    assert h[..5] == [h[0]] + [h[1]] + [h[2]] + [h[3]] + [h[4]];
    LoadLinesAppend(st, [h[0]], [h[1]]);
    LoadLinesAppend(st, [h[0]] + [h[1]], [h[2]]);
    LoadLinesAppend(st, [h[0]] + [h[1]] + [h[2]], [h[3]]);
    LoadLinesAppend(st, [h[0]] + [h[1]] + [h[2]] + [h[3]], [h[4]]);
  }

  lemma ReadField(st: Loading, key: string, value: string) returns (after: Loading)
    requires IsKey(key) && key != "allowed_model_slugs"
    ensures after == Loading(Assign(st.cfg, key, Unquote(Quoted(value))), false)
    ensures LoadLines(st, [FieldLine(key, Quoted(value))]) == after
  {
    FieldRead(st, key, Quoted(value));
    LoadOne(st, FieldLine(key, Quoted(value)));
    after := LoadLine(st, FieldLine(key, Quoted(value)));
  }

  lemma ReadPlainField(st: Loading, key: string, body: string) returns (after: Loading)
    requires IsKey(key) && key != "allowed_model_slugs"
    requires body != [] && Tight(body, IsSpace) && Tight(body, IsQuote)
    ensures after == Loading(Assign(st.cfg, key, body), false)
    ensures LoadLines(st, [FieldLine(key, body)]) == after
  {
    FieldRead(st, key, body);
    TrimFixes(body, IsQuote);
    LoadOne(st, FieldLine(key, body));
    after := LoadLine(st, FieldLine(key, body));
  }

  lemma PlainFieldsRead(st: Loading, c: Config)
    requires IsInt64(c.maxConcurrentJobs) && IsInt64(c.heartbeatIntervalSeconds)
    ensures LoadLines(st, HeadLines(c)[5..8]) ==
            Loading(st.cfg.(allowAutoModelPull := c.allowAutoModelPull,
                            maxConcurrentJobs := c.maxConcurrentJobs,
                            heartbeatIntervalSeconds := c.heartbeatIntervalSeconds), false)
  {
    BoolReturns(c.allowAutoModelPull);
    hide LoadLine, Unquote, Quoted, Atoi, Itoa, IsKey, Tight, ParseBool, BoolText;
    KeysAreKeys();
    var h := HeadLines(c);
    ItoaTight(c.maxConcurrentJobs);
    ItoaTight(c.heartbeatIntervalSeconds);
    AtoiItoa(c.maxConcurrentJobs);
    AtoiItoa(c.heartbeatIntervalSeconds);
    var s1 := ReadPlainField(st, "allow_auto_model_pull", BoolText(c.allowAutoModelPull));
    var s2 := ReadPlainField(s1, "max_concurrent_jobs", Itoa(c.maxConcurrentJobs));
    var s3 := ReadPlainField(s2, "heartbeat_interval_seconds", Itoa(c.heartbeatIntervalSeconds));
    assert h[5..8] == [h[5]] + [h[6]] + [h[7]];
    LoadLinesAppend(st, [h[5]], [h[6]]);
    LoadLinesAppend(st, [h[5]] + [h[6]], [h[7]]);
  }

  lemma BoolReturns(b: bool)
    ensures ParseBool(BoolText(b)) == b
    ensures BoolText(b) != [] && Tight(BoolText(b), IsSpace) && Tight(BoolText(b), IsQuote)
  {
  }

  lemma LastFieldsRead(st: Loading, c: Config)
    ensures LoadLines(st, HeadLines(c)[8..]) == Loading(st.cfg.(logLevel := Unquote(Quoted(c.logLevel))), true)
  {
    hide LoadLine, Unquote, Quoted, IsKey;
    KeysAreKeys();
    var h := HeadLines(c);
    var s1 := ReadField(st, "log_level", c.logLevel);
    ListStartRead(s1);
    LoadOne(s1, h[9]);
    assert h[8..] == [h[8]] + [h[9]];
    LoadLinesAppend(st, [h[8]], [h[9]]);
  }

  lemma {:induction false} SlugsRead(st: Loading, slugs: seq<string>)
    requires st.inAllowed
    ensures LoadLines(st, SlugLines(slugs)) ==
            st.(cfg := st.cfg.(allowedModelSlugs := st.cfg.allowedModelSlugs + Unquoted(slugs)))
  {
    hide LoadLine, Unquote, Quoted;
    if slugs == [] {
      assert st.cfg.allowedModelSlugs + [] == st.cfg.allowedModelSlugs;
    } else {
      var n := |slugs| - 1;
      SlugsRead(st, slugs[..n]);
      SlugRead(LoadLines(st, SlugLines(slugs[..n])), slugs[n]);
      assert SlugLines(slugs)[..|SlugLines(slugs)| - 1] == SlugLines(slugs[..n]);
      assert st.cfg.allowedModelSlugs + Unquoted(slugs)
          == st.cfg.allowedModelSlugs + Unquoted(slugs[..n]) + [Unquote(Quoted(slugs[n]))];
    }
  }

  lemma FileRead(c: Config)
    requires IsInt64(c.maxConcurrentJobs) && IsInt64(c.heartbeatIntervalSeconds)
    ensures LoadLines(Loading(DEFAULT, false), AllLines(c)).cfg == Reread(c)
  {
    hide LoadLine, LoadLines, Unquote, Quoted;
    var st := Loading(DEFAULT, false);
    var h := HeadLines(c);
    assert h == h[..5] + h[5..8] + h[8..];
    LoadLinesAppend(st, h[..5], h[5..8]);
    LoadLinesAppend(st, h[..5] + h[5..8], h[8..]);
    StringFieldsRead(st, c);
    PlainFieldsRead(LoadLines(st, h[..5]), c);
    LastFieldsRead(LoadLines(st, h[..5] + h[5..8]), c);
    LoadLinesAppend(st, h, SlugLines(c.allowedModelSlugs));
    SlugsRead(LoadLines(st, h), c.allowedModelSlugs);
    assert [] + Unquoted(c.allowedModelSlugs) == Unquoted(c.allowedModelSlugs);
  }

  // ---- Text and lines ----

  lemma {:induction false} NewlineAfter(line: string, rest: string)
    requires '\n' !in line
    ensures Newline(line + "\n" + rest) == |line|
  {
    if line == [] {
      assert line + "\n" + rest == "\n" + rest;
    } else {
      assert (line + "\n" + rest)[1..] == line[1..] + "\n" + rest;
      NewlineAfter(line[1..], rest);
    }
  }

  lemma {:induction false} JoinFirst(line: string, lines: seq<string>)
    ensures Join([line] + lines) == line + "\n" + Join(lines)
  {
    if lines == [] {
      assert [line] + lines == [line];
      assert [line][..0] == [];
    } else {
      var n := |lines| - 1;
      assert ([line] + lines)[..|lines|] == [line] + lines[..n];
      JoinFirst(line, lines[..n]);
      assert line + "\n" + Join(lines[..n]) + lines[n] + "\n" == line + "\n" + (Join(lines[..n]) + lines[n] + "\n");
    }
  }

  ghost predicate Single(lines: seq<string>) {
    forall k :: 0 <= k < |lines| ==> '\n' !in lines[k]
  }

  lemma {:induction false} SplitJoin(lines: seq<string>)
    requires Single(lines)
    ensures Split(Join(lines)) == lines
  {
    if lines != [] {
      var line, rest := lines[0], lines[1..];
      assert lines == [line] + rest;
      JoinFirst(line, rest);
      NewlineAfter(line, Join(rest));
      var text := Join(lines);
      assert text[..|line|] == line && text[|line| + 1..] == Join(rest);
      SplitJoin(rest);
    }
  }

  /** Printable ASCII. */
  predicate Printable(s: string) {
    forall k :: 0 <= k < |s| ==> ' ' <= s[k] <= '~'
  }

  predicate PrintableConfig(c: Config) {
    && Printable(c.serverURL) && Printable(c.providerToken) && Printable(c.providerName) && Printable(c.instanceKey)
    && Printable(c.ollamaURL) && Printable(c.logLevel)
    && forall k :: 0 <= k < |c.allowedModelSlugs| ==> Printable(c.allowedModelSlugs[k])
  }

  lemma {:induction false} EscapePrintable(s: string)
    requires Printable(s)
    ensures Printable(Escape(s))
  {
    if s != [] {
      EscapePrintable(s[..|s| - 1]);
    }
  }

  lemma QuotedOneLine(s: string)
    requires Printable(s)
    ensures '\n' !in Quoted(s)
  {
    EscapePrintable(s);
  }

  lemma ItoaOneLine(n: int)
    ensures '\n' !in Itoa(n)
  {
    DigitsReturn(if n < 0 then -n else n);
  }

  lemma {:induction false} SlugLinesOneLine(slugs: seq<string>)
    requires forall k :: 0 <= k < |slugs| ==> Printable(slugs[k])
    ensures forall k :: 0 <= k < |SlugLines(slugs)| ==> '\n' !in SlugLines(slugs)[k]
  {
    if slugs != [] {
      SlugLinesOneLine(slugs[..|slugs| - 1]);
      QuotedOneLine(slugs[|slugs| - 1]);
    }
  }

  lemma HeadLinesOneLine(c: Config)
    requires PrintableConfig(c)
    ensures forall k :: 0 <= k < |HeadLines(c)| ==> '\n' !in HeadLines(c)[k]
  {
    hide Printable, FieldLine, BoolText;
    StringOneLine("server_url", c.serverURL);
    StringOneLine("provider_token", c.providerToken);
    StringOneLine("provider_name", c.providerName);
    StringOneLine("instance_key", c.instanceKey);
    StringOneLine("ollama_url", c.ollamaURL);
    StringOneLine("log_level", c.logLevel);
    OtherFieldsOneLine(c);
  }

  lemma StringOneLine(key: string, value: string)
    requires '\n' !in key && Printable(value)
    ensures '\n' !in FieldLine(key, Quoted(value))
  {
    hide Quoted;
    QuotedOneLine(value);
  }

  lemma OtherFieldsOneLine(c: Config)
    ensures '\n' !in FieldLine("allow_auto_model_pull", BoolText(c.allowAutoModelPull))
    ensures '\n' !in FieldLine("max_concurrent_jobs", Itoa(c.maxConcurrentJobs))
    ensures '\n' !in FieldLine("heartbeat_interval_seconds", Itoa(c.heartbeatIntervalSeconds))
  {
    hide Itoa;
    ItoaOneLine(c.maxConcurrentJobs);
    ItoaOneLine(c.heartbeatIntervalSeconds);
  }

  // ---- The round trip ----

  ghost predicate PlainConfig(c: Config) {
    && Plain(c.serverURL) && Plain(c.providerToken) && Plain(c.providerName) && Plain(c.instanceKey)
    && Plain(c.ollamaURL) && Plain(c.logLevel)
    && forall k :: 0 <= k < |c.allowedModelSlugs| ==> Plain(c.allowedModelSlugs[k])
  }

  lemma {:induction false} UnquotedFixes(slugs: seq<string>)
    ensures |Unquoted(slugs)| == |slugs|
    ensures Unquoted(slugs) == slugs <==> forall k :: 0 <= k < |slugs| ==> Plain(slugs[k])
  {
    hide Unquote, Quoted, Plain;
    if slugs != [] {
      var n := |slugs| - 1;
      UnquotedFixes(slugs[..n]);
      ValueReturns(slugs[n]);
      assert slugs == slugs[..n] + [slugs[n]];
      assert Unquoted(slugs)[..n] == Unquoted(slugs[..n]);
      assert forall k :: 0 <= k < n ==> slugs[..n][k] == slugs[k];
    }
  }

  lemma RereadFixes(c: Config)
    ensures Reread(c) == c <==> PlainConfig(c)
  {
    hide Unquote, Quoted, Plain;
    ValueReturns(c.serverURL);
    ValueReturns(c.providerToken);
    ValueReturns(c.providerName);
    ValueReturns(c.instanceKey);
    ValueReturns(c.ollamaURL);
    ValueReturns(c.logLevel);
    UnquotedFixes(c.allowedModelSlugs);
  }

  /** Load returns what Write was given, completed by its instance key, if and only if every line fits
      the scanner and no value holds a quote or backslash or starts or ends with an apostrophe. */
  lemma RoundTrip(cfg: Config, token: string)
    requires PrintableConfig(WithKey(cfg, token))
    requires IsInt64(cfg.maxConcurrentJobs) && IsInt64(cfg.heartbeatIntervalSeconds)
    ensures var c := if cfg.instanceKey == "" then cfg.(instanceKey := "inst_" + token) else cfg;
            Loaded(Written(cfg, token)) == Some(c) <==> Fits(AllLines(c)) && PlainConfig(c)
  {
    var c := WithKey(cfg, token);
    HeadLinesOneLine(c);
    SlugLinesOneLine(c.allowedModelSlugs);
    hide HeadLines, SlugLines, LoadLines, Join, Split, Reread;
    assert Single(AllLines(c));
    SplitJoin(AllLines(c));
    FileRead(c);
    RereadFixes(c);
  }

  lemma CommentIgnored(p: seq<string>, comment: string, q: seq<string>)
    requires Ignored(comment)
    ensures LoadLines(Loading(DEFAULT, false), p + [comment] + q) == LoadLines(Loading(DEFAULT, false), p + q)
  {
    var st := Loading(DEFAULT, false);
    LoadLinesAppend(st, p + [comment], q);
    LoadLinesAppend(st, p, [comment]);
    LoadLinesAppend(st, p, q);
    LoadOne(LoadLines(st, p), comment);
  }

  lemma WithoutComment(p: seq<string>, comment: string, q: seq<string>)
    requires Single(p + [comment] + q) && |comment| <= MAX_LINE
    ensures Single(p + q) && (Fits(p + [comment] + q) <==> Fits(p + q))
  {
    var long, short := p + [comment] + q, p + q;
    assert forall k :: 0 <= k < |short| ==> short[k] == long[if k < |p| then k else k + 1];
    assert forall k :: 0 <= k < |long| && k != |p| ==> long[k] == short[if k < |p| then k else k - 1];
    assert long[|p|] == comment;
  }

  /** Blank lines and comments change nothing wherever they stand in a file, even inside the list. */
  lemma CommentsChangeNothing(p: seq<string>, comment: string, q: seq<string>)
    requires Ignored(comment) && |comment| <= MAX_LINE && Single(p + [comment] + q)
    ensures Loaded(Join(p + [comment] + q)) == Loaded(Join(p + q))
  {
    hide LoadLines, Ignored, Fits, Single, Split, Join;
    WithoutComment(p, comment, q);
    SplitJoin(p + [comment] + q);
    SplitJoin(p + q);
    CommentIgnored(p, comment, q);
  }
}
