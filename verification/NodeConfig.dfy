/** The provider node's configuration file: Write prints it, Load reads it line by line. Strings are
    modelled for printable ASCII values, where %q escapes only quotes and backslashes. */
module NodeConfig {
  import opened Credits
  import opened Text

  datatype Config = Config(
    serverURL: string, providerToken: string, providerName: string, instanceKey: string, ollamaURL: string,
    allowAutoModelPull: bool, maxConcurrentJobs: int, heartbeatIntervalSeconds: int, logLevel: string,
    allowedModelSlugs: seq<string>)

  const DEFAULT := Config("http://localhost:18080", "", "", "", "http://localhost:11434", false, 1, 15, "info", [])

  // ---- strconv ----

  predicate IsQuote(c: char) {
    c == '"' || c == '\''
  }

  function Unquote(s: string): string {
    Trim(s, IsQuote)
  }

  /** Position of the first colon, or the length of the line. */
  function Colon(s: string): (k: nat)
    ensures k <= |s|
  {
    if s == [] || s[0] == ':' then 0 else 1 + Colon(s[1..])
  }

  function EscapeChar(c: char): string {
    if c == '"' || c == '\\' then ['\\', c] else [c]
  }

  function Escape(s: string): string {
    if s == [] then [] else Escape(s[..|s| - 1]) + EscapeChar(s[|s| - 1])
  }

  /** %q */
  function Quoted(s: string): string {
    "\"" + Escape(s) + "\""
  }

  function Digit(d: int): char
    requires 0 <= d < 10
  {
    '0' + d as char
  }

  function Digits(n: nat): string {
    if n < 10 then [Digit(n)] else Digits(n / 10) + [Digit(n % 10)]
  }

  /** %d */
  function Itoa(n: int): string {
    if n < 0 then "-" + Digits(-n) else Digits(n)
  }

  predicate AllDigits(s: string) {
    forall k :: 0 <= k < |s| ==> '0' <= s[k] <= '9'
  }

  function DigitsValue(s: string): nat
    requires AllDigits(s)
  {
    if s == [] then 0 else 10 * DigitsValue(s[..|s| - 1]) + (s[|s| - 1] as int - '0' as int)
  }

  function Clamp(n: int): int {
    if n > MAX_INT64 then MAX_INT64 else if n < MIN_INT64 then MIN_INT64 else n
  }

  /** strconv.Atoi with its error dropped: 0 on a syntax error, the nearest bound out of range. */
  function Atoi(s: string): int {
    var negative := s != [] && s[0] == '-';
    var digits := if s != [] && (s[0] == '-' || s[0] == '+') then s[1..] else s;
    if digits == [] || !AllDigits(digits) then 0
    else
      var n: int := DigitsValue(digits);
      Clamp(if negative then -n else n)
  }

  function ParseBool(s: string): bool {
    s == "1" || s == "t" || s == "T" || s == "TRUE" || s == "true" || s == "True"
  }

  function BoolText(b: bool): string {
    if b then "true" else "false"
  }

  // ---- Write ----

  /** An empty instance key is replaced by a fresh random one. */
  function WithKey(cfg: Config, token: string): Config {
    if cfg.instanceKey == "" then cfg.(instanceKey := "inst_" + token) else cfg
  }

  function FieldLine(key: string, body: string): string {
    key + ": " + body
  }

  function SlugLine(slug: string): string {
    "  - " + Quoted(slug)
  }

  function HeadLines(c: Config): seq<string> {
    [FieldLine("server_url", Quoted(c.serverURL)),
     FieldLine("provider_token", Quoted(c.providerToken)),
     FieldLine("provider_name", Quoted(c.providerName)),
     FieldLine("instance_key", Quoted(c.instanceKey)),
     FieldLine("ollama_url", Quoted(c.ollamaURL)),
     FieldLine("allow_auto_model_pull", BoolText(c.allowAutoModelPull)),
     FieldLine("max_concurrent_jobs", Itoa(c.maxConcurrentJobs)),
     FieldLine("heartbeat_interval_seconds", Itoa(c.heartbeatIntervalSeconds)),
     FieldLine("log_level", Quoted(c.logLevel)),
     "allowed_model_slugs:"]
  }

  function SlugLines(slugs: seq<string>): seq<string> {
    if slugs == [] then [] else SlugLines(slugs[..|slugs| - 1]) + [SlugLine(slugs[|slugs| - 1])]
  }

  function AllLines(c: Config): seq<string> {
    HeadLines(c) + SlugLines(c.allowedModelSlugs)
  }

  /** Lines as text, each closed by a newline. */
  function Join(lines: seq<string>): string {
    if lines == [] then [] else Join(lines[..|lines| - 1]) + lines[|lines| - 1] + "\n"
  }

  function Written(cfg: Config, token: string): string {
    Join(AllLines(WithKey(cfg, token)))
  }

  // ---- Load ----

  /** bufio.Scanner refuses longer lines. */
  const MAX_LINE: nat := 65535

  datatype Loading = Loading(cfg: Config, inAllowed: bool)

  function Assign(cfg: Config, key: string, val: string): Config {
    if key == "server_url" then cfg.(serverURL := val)
    else if key == "provider_token" then cfg.(providerToken := val)
    else if key == "provider_name" then cfg.(providerName := val)
    else if key == "instance_key" then cfg.(instanceKey := val)
    else if key == "ollama_url" then cfg.(ollamaURL := val)
    else if key == "allow_auto_model_pull" then cfg.(allowAutoModelPull := ParseBool(val))
    else if key == "max_concurrent_jobs" then cfg.(maxConcurrentJobs := Atoi(val))
    else if key == "heartbeat_interval_seconds" then cfg.(heartbeatIntervalSeconds := Atoi(val))
    else if key == "log_level" then cfg.(logLevel := val)
    else cfg
  }

  predicate Ignored(raw: string) {
    var line := TrimSpace(raw); line == "" || line[0] == '#'
  }

  function LoadLine(st: Loading, raw: string): Loading {
    var line := TrimSpace(raw);
    if line == "" || line[0] == '#' then st
    else if st.inAllowed && line[0] == '-' then
      st.(cfg := st.cfg.(allowedModelSlugs := st.cfg.allowedModelSlugs + [Unquote(TrimSpace(line[1..]))]))
    else
      var k := Colon(line);
      if k == |line| then st.(inAllowed := false)
      else
        var key := TrimSpace(line[..k]);
        var val := Unquote(TrimSpace(line[k + 1..]));
        if key == "allowed_model_slugs" then st.(inAllowed := true)
        else Loading(Assign(st.cfg, key, val), false)
  }

  function LoadLines(st: Loading, lines: seq<string>): Loading {
    if lines == [] then st else LoadLine(LoadLines(st, lines[..|lines| - 1]), lines[|lines| - 1])
  }

  /** Lines of a text: what stands before each newline, and a non-empty rest. */
  function Split(text: string): seq<string>
    decreases |text|
  {
    if text == [] then []
    else
      var n := Newline(text);
      if n == |text| then [text] else [text[..n]] + Split(text[n + 1..])
  }

  function Newline(s: string): (k: nat)
    ensures k <= |s|
  {
    if s == [] || s[0] == '\n' then 0 else 1 + Newline(s[1..])
  }

  predicate Fits(lines: seq<string>) {
    forall k :: 0 <= k < |lines| ==> |lines[k]| <= MAX_LINE
  }

  /** None stands for the scanner's error. */
  function Loaded(text: string): Option<Config> {
    if Fits(Split(text)) then Some(LoadLines(Loading(DEFAULT, false), Split(text)).cfg) else None
  }

  method Write(cfg: Config, token: string) returns (text: string)
    ensures text == Written(cfg, token)
  {
    var c := cfg;
    if c.instanceKey == "" {
      c := c.(instanceKey := "inst_" + token);
    }
    hide HeadLines, SlugLine, Join;
    text := Join(HeadLines(c));
    assert HeadLines(c) + SlugLines(c.allowedModelSlugs[..0]) == HeadLines(c);
    for k := 0 to |c.allowedModelSlugs|
      invariant text == Join(HeadLines(c) + SlugLines(c.allowedModelSlugs[..k]))
    {
      OneMoreSlug(HeadLines(c), c.allowedModelSlugs, k);
      text := text + SlugLine(c.allowedModelSlugs[k]) + "\n";
    }
    assert c.allowedModelSlugs[..|c.allowedModelSlugs|] == c.allowedModelSlugs;
  }

  lemma OneMoreSlug(head: seq<string>, slugs: seq<string>, k: nat)
    requires k < |slugs|
    ensures Join(head + SlugLines(slugs[..k + 1])) == Join(head + SlugLines(slugs[..k])) + SlugLine(slugs[k]) + "\n"
  {
    hide SlugLine;
    var before, line := head + SlugLines(slugs[..k]), SlugLine(slugs[k]);
    assert slugs[..k + 1][..k] == slugs[..k];
    assert head + SlugLines(slugs[..k + 1]) == before + [line];
    assert (before + [line])[..|before|] == before;
  }

  method Load(text: string) returns (r: Option<Config>)
    ensures r == Loaded(text)
  {
    hide LoadLine;
    var lines := Split(text);
    var cfg := DEFAULT;
    var inAllowed := false;
    for k := 0 to |lines|
      invariant Fits(lines[..k])
      invariant Loading(cfg, inAllowed) == LoadLines(Loading(DEFAULT, false), lines[..k])
    {
      if |lines[k]| > MAX_LINE {
        return None;
      }
      assert lines[..k + 1][..k] == lines[..k];
      cfg, inAllowed := ReadLine(cfg, inAllowed, lines[k]);
    }
    assert lines[..|lines|] == lines;
    return Some(cfg);
  }

  /** The loop body of Load. */
  method ReadLine(cfg0: Config, inAllowed0: bool, raw: string) returns (cfg: Config, inAllowed: bool)
    ensures Loading(cfg, inAllowed) == LoadLine(Loading(cfg0, inAllowed0), raw)
  {
    cfg, inAllowed := cfg0, inAllowed0;
    var line := TrimSpace(raw);
    if line == "" || line[0] == '#' {
      return;
    }
    if inAllowed && line[0] == '-' {
      cfg := cfg.(allowedModelSlugs := cfg.allowedModelSlugs + [Unquote(TrimSpace(line[1..]))]);
      return;
    }
    inAllowed := false;
    var k := Colon(line);
    if k == |line| {
      return;
    }
    var key, val := TrimSpace(line[..k]), Unquote(TrimSpace(line[k + 1..]));
    if key == "allowed_model_slugs" {
      inAllowed := true;
      return;
    }
    cfg := Assign(cfg, key, val);
  }
}
