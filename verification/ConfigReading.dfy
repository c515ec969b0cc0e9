/** What Load makes of any file, hand-written ones included: every setting is that of the last line that
    names it, and the slugs are the items that stand under their header. */
module ConfigReading {
  import opened Credits
  import opened NodeConfig
  import opened Text
  import opened ConfigRoundTrip

  predicate IsItem(raw: string) {
    var line := TrimSpace(raw); line != "" && line[0] == '-'
  }

  /** Key and value of a line that is no comment, no item, and has a colon. */
  function Entry(raw: string): Option<(string, string)> {
    var line := TrimSpace(raw);
    if line == "" || line[0] == '#' || line[0] == '-' || Colon(line) == |line| then None
    else Some((TrimSpace(line[..Colon(line)]), Unquote(TrimSpace(line[Colon(line) + 1..]))))
  }

  /** The value of the last line with this key. */
  function LastOf(lines: seq<string>, key: string): Option<string> {
    if lines == [] then None
    else
      var e := Entry(lines[|lines| - 1]);
      if e.Some? && e.value.0 == key then Some(e.value.1) else LastOf(lines[..|lines| - 1], key)
  }

  function TextOf(lines: seq<string>, key: string, default: string): string {
    if LastOf(lines, key).Some? then LastOf(lines, key).value else default
  }

  function NumberOf(lines: seq<string>, key: string, default: int): int {
    if LastOf(lines, key).Some? then Atoi(LastOf(lines, key).value) else default
  }

  /** The last line that is neither a comment nor an item is the header of the list. */
  predicate UnderHeader(lines: seq<string>) {
    lines != [] &&
    (if Ignored(lines[|lines| - 1]) || IsItem(lines[|lines| - 1]) then UnderHeader(lines[..|lines| - 1])
     else Entry(lines[|lines| - 1]).Some? && Entry(lines[|lines| - 1]).value.0 == "allowed_model_slugs")
  }

  /** The items under a header, in order. */
  function Items(lines: seq<string>): seq<string> {
    if lines == [] then []
    else
      var init, last := lines[..|lines| - 1], lines[|lines| - 1];
      Items(init) + if IsItem(last) && UnderHeader(init) then [Unquote(TrimSpace(TrimSpace(last)[1..]))] else []
  }

  /** Missing keys have their defaults, unknown keys and lines without a colon are skipped, and a boolean is true
      for six spellings only. */
  function Described(lines: seq<string>): Config {
    Config(
      TextOf(lines, "server_url", "http://localhost:18080"),
      TextOf(lines, "provider_token", ""),
      TextOf(lines, "provider_name", ""),
      TextOf(lines, "instance_key", ""),
      TextOf(lines, "ollama_url", "http://localhost:11434"),
      TextOf(lines, "allow_auto_model_pull", "false") in ["1", "t", "T", "TRUE", "true", "True"],
      NumberOf(lines, "max_concurrent_jobs", 1),
      NumberOf(lines, "heartbeat_interval_seconds", 15),
      TextOf(lines, "log_level", "info"),
      Items(lines))
  }

  lemma {:induction false} ColonIsFirst(s: string)
    ensures Colon(s) == |s| <==> ':' !in s
    ensures Colon(s) < |s| ==> s[Colon(s)] == ':' && ':' !in s[..Colon(s)]
  {
    if s != [] && s[0] != ':' {
      ColonIsFirst(s[1..]);
      assert s == [s[0]] + s[1..];
      if Colon(s) < |s| {
        assert s[..Colon(s)] == [s[0]] + s[1..][..Colon(s[1..])];
      }
    }
  }

  lemma {:induction false} TrimRightKeepsFirst(s: string, p: char -> bool)
    requires s != [] && !p(s[0])
    ensures TrimRight(s, p) != [] && TrimRight(s, p)[0] == s[0]
  {
    if p(s[|s| - 1]) {
      TrimRightKeepsFirst(s[..|s| - 1], p);
    }
  }

  /** What starts with a dash has no known key. */
  lemma DashIsNoKey(line: string)
    requires line != [] && line[0] == '-' && ':' in line
    ensures Colon(line) > 0
    ensures var key := TrimSpace(line[..Colon(line)]); key != [] && key[0] == '-'
  {
    ColonIsFirst(line);
    TrimRightKeepsFirst(line[..Colon(line)], IsSpace);
  }

  lemma DashAssignsNothing(cfg: Config, key: string, val: string)
    requires key != [] && key[0] == '-'
    ensures Assign(cfg, key, val) == cfg && key != "allowed_model_slugs"
  {
  }

  /** The loader's step, by kind of line. */
  lemma StepByKind(st: Loading, raw: string)
    ensures Ignored(raw) ==> LoadLine(st, raw) == st
    ensures IsItem(raw) ==>
              LoadLine(st, raw) ==
              if st.inAllowed then
                st.(cfg := st.cfg.(allowedModelSlugs :=
                      st.cfg.allowedModelSlugs + [Unquote(TrimSpace(TrimSpace(raw)[1..]))]))
              else st
    ensures !Ignored(raw) && !IsItem(raw) && Entry(raw).None? ==> LoadLine(st, raw) == st.(inAllowed := false)
    ensures !Ignored(raw) && !IsItem(raw) && Entry(raw).Some? ==>
              LoadLine(st, raw) ==
              if Entry(raw).value.0 == "allowed_model_slugs" then st.(inAllowed := true)
              else Loading(Assign(st.cfg, Entry(raw).value.0, Entry(raw).value.1), false)
  {
    var line := TrimSpace(raw);
    ColonIsFirst(line);
    hide Assign, Unquote, TrimSpace;
    if line != "" && line[0] == '-' && ':' in line {
      DashIsNoKey(line);
      DashAssignsNothing(st.cfg, TrimSpace(line[..Colon(line)]), Unquote(TrimSpace(line[Colon(line) + 1..])));
    }
  }

  lemma ValueStep(init: seq<string>, raw: string, key: string)
    ensures LastOf(init + [raw], key) ==
            if Entry(raw).Some? && Entry(raw).value.0 == key then Some(Entry(raw).value.1) else LastOf(init, key)
  {
    assert (init + [raw])[..|init|] == init;
    hide Entry;
  }

  lemma ValueSteps(init: seq<string>, raw: string)
    ensures forall key :: LastOf(init + [raw], key) ==
              if Entry(raw).Some? && Entry(raw).value.0 == key then Some(Entry(raw).value.1) else LastOf(init, key)
  {
    forall key: string
      ensures LastOf(init + [raw], key) ==
              if Entry(raw).Some? && Entry(raw).value.0 == key then Some(Entry(raw).value.1) else LastOf(init, key)
    {
      ValueStep(init, raw, key);
    }
  }

  /** What an assignment does to the text settings, */
  lemma AssignTexts(cfg: Config, key: string, val: string)
    ensures var c := Assign(cfg, key, val);
            && c.serverURL == (if key == "server_url" then val else cfg.serverURL)
            && c.providerToken == (if key == "provider_token" then val else cfg.providerToken)
            && c.providerName == (if key == "provider_name" then val else cfg.providerName)
            && c.instanceKey == (if key == "instance_key" then val else cfg.instanceKey)
  {
    hide Atoi, ParseBool;
  }

  lemma AssignMoreTexts(cfg: Config, key: string, val: string)
    ensures var c := Assign(cfg, key, val);
            && c.ollamaURL == (if key == "ollama_url" then val else cfg.ollamaURL)
            && c.logLevel == (if key == "log_level" then val else cfg.logLevel)
            && c.allowedModelSlugs == cfg.allowedModelSlugs
  {
    hide Atoi, ParseBool;
  }

  /** and to the others. */
  lemma AssignOthers(cfg: Config, key: string, val: string)
    ensures var c := Assign(cfg, key, val);
            && c.allowAutoModelPull ==
               (if key == "allow_auto_model_pull" then val in ["1", "t", "T", "TRUE", "true", "True"]
                else cfg.allowAutoModelPull)
            && c.maxConcurrentJobs == (if key == "max_concurrent_jobs" then Atoi(val) else cfg.maxConcurrentJobs)
            && c.heartbeatIntervalSeconds ==
               (if key == "heartbeat_interval_seconds" then Atoi(val) else cfg.heartbeatIntervalSeconds)
  {
    hide Atoi;
  }

  /** An entry sets its own setting and leaves the others. */
  lemma EntryStep(init: seq<string>, raw: string, slugs: seq<string>)
    requires Entry(raw).Some?
    ensures Described(init + [raw]).(allowedModelSlugs := slugs) ==
            Assign(Described(init).(allowedModelSlugs := slugs), Entry(raw).value.0, Entry(raw).value.1)
  {
    ValueSteps(init, raw);
    var c, key, val := Described(init).(allowedModelSlugs := slugs), Entry(raw).value.0, Entry(raw).value.1;
    hide LastOf, Entry, Atoi, Items, Assign;
    AssignTexts(c, key, val);
    AssignMoreTexts(c, key, val);
    AssignOthers(c, key, val);
  }

  /** The header of the list, and what is no entry, leave them all. */
  lemma OtherStep(init: seq<string>, raw: string, slugs: seq<string>)
    requires Entry(raw).None?
    ensures Described(init + [raw]).(allowedModelSlugs := slugs) == Described(init).(allowedModelSlugs := slugs)
  {
    ValueSteps(init, raw);
    hide LastOf, Entry, Atoi, Items;
  }

  lemma HeaderAssignsNothing(cfg: Config, val: string)
    ensures Assign(cfg, "allowed_model_slugs", val) == cfg
  {
  }

  lemma DescribedStep(init: seq<string>, raw: string)
    ensures var c := Described(init).(allowedModelSlugs := Items(init + [raw]));
            Described(init + [raw]) ==
            if Entry(raw).Some? then Assign(c, Entry(raw).value.0, Entry(raw).value.1) else c
  {
    var slugs := Items(init + [raw]);
    hide Entry, LastOf, Items, Atoi, Assign;
    assert Described(init + [raw]).(allowedModelSlugs := slugs) == Described(init + [raw]);
    if Entry(raw).Some? {
      EntryStep(init, raw, slugs);
    } else {
      OtherStep(init, raw, slugs);
    }
  }

  lemma KindsDiffer(raw: string)
    ensures Ignored(raw) ==> !IsItem(raw) && Entry(raw).None?
    ensures IsItem(raw) ==> Entry(raw).None?
  {
  }

  lemma SlugsDescribed(lines: seq<string>)
    ensures Described(lines).allowedModelSlugs == Items(lines)
  {
  }

  lemma {:induction false} LinesAreDescribed(lines: seq<string>)
    ensures LoadLines(Loading(DEFAULT, false), lines) == Loading(Described(lines), UnderHeader(lines))
  {
    if lines == [] {
      NothingIsDescribed();
    } else {
      var init, raw := lines[..|lines| - 1], lines[|lines| - 1];
      assert lines == init + [raw];
      LinesAreDescribed(init);
      hide LoadLine, Entry, Ignored, IsItem, Assign, Unquote, TrimSpace, LastOf, Described;
      OneMoreLine(init, raw);
    }
  }

  lemma NothingIsDescribed()
    ensures DEFAULT == Described([])
  {
  }

  lemma OneMoreLine(init: seq<string>, raw: string)
    ensures LoadLine(Loading(Described(init), UnderHeader(init)), raw) ==
            Loading(Described(init + [raw]), UnderHeader(init + [raw]))
  {
    var st := Loading(Described(init), UnderHeader(init));
    StepByKind(st, raw);
    KindsDiffer(raw);
    DescribedStep(init, raw);
    SlugsDescribed(init);
    assert (init + [raw])[..|init|] == init;
    hide LoadLine, Entry, Ignored, IsItem, Assign, Unquote, TrimSpace, LastOf, Described;
    assert Items(init) + [] == Items(init);
    if Entry(raw).Some? && Entry(raw).value.0 == "allowed_model_slugs" {
      HeaderAssignsNothing(st.cfg, Entry(raw).value.1);
    }
  }

  /** The whole loader: an overlong line is an error, and any other text is read as described. */
  lemma LoadIsDescribed(text: string)
    ensures Loaded(text) == if forall k :: 0 <= k < |Split(text)| ==> |Split(text)[k]| <= 65535
                            then Some(Described(Split(text))) else None
  {
    hide Split, LoadLines, Described, UnderHeader;
    LinesAreDescribed(Split(text));
  }
}
