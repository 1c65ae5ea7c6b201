/** Which processes are recognised, spelled out in letters: what the tests on
    names and command lines amount to, and where such a process is charged. */
module ProcessIdentity {
  import opened Common
  import opened ProcessTree
  import opened TreeAggregate

  // Names and tokens.

  /** The letter itself, or its ASCII upper case. */
  predicate AnyCase(c: char, letter: char) {
    c == letter || ('a' <= letter <= 'z' && c as int == letter as int - 32)
  }

  /** The word in any mixture of cases. */
  predicate Spells(text: string, word: string) {
    |text| == |word| && forall i :: 0 <= i < |word| ==> AnyCase(text[i], word[i])
  }

  predicate EndsFolder(prefix: string) {
    prefix == "" || Last(prefix) == '/' || Last(prefix) == '\\'
  }

  /** The last component of the path is the name. */
  ghost predicate NamedAt(path: string, prefix: string, base: string, name: string) {
    path == prefix + base && EndsFolder(prefix) && Spells(base, name)
  }

  ghost predicate IsNamed(sample: Sample, name: string) {
    exists prefix, base :: NamedAt(sample.executable, prefix, base, name) || NamedAt(sample.name, prefix, base, name)
  }

  predicate Blank(c: char) {
    c in {' ', '\t', '\n', '\r', 12 as char, '"', '\''}
  }

  /** The word stands between separators, or at an end of the line. */
  ghost predicate TokenAt(line: string, before: string, token: string, after: string, word: string) {
    && line == before + token + after && Spells(token, word)
    && (before == "" || Blank(Last(before)))
    && (after == "" || Blank(after[0]))
  }

  ghost predicate HoldsToken(line: string, word: string) {
    exists before, token, after :: TokenAt(line, before, token, after, word)
  }

  ghost predicate ContainsAt(value: string, before: string, part: string, after: string, word: string) {
    value == before + part + after && Spells(part, word)
  }

  ghost predicate Contains(value: string, word: string) {
    exists before, part, after :: ContainsAt(value, before, part, after, word)
  }

  /** A lower-case word that is neither a path nor several tokens. */
  predicate IsWord(word: string) {
    forall i :: 0 <= i < |word| ==> 'a' <= word[i] <= 'z' || word[i] == '-' || word[i] == '.'
  }

  lemma IgnoringCaseIsSpelling(text: string, word: string)
    requires IsWord(word)
    ensures EqIgnoreCase(text, word) <==> Spells(text, word)
  {
    if |text| == |word| {
      forall i | 0 <= i < |word|
        ensures Lower(text[i]) == Lower(word[i]) <==> AnyCase(text[i], word[i])
      {
      }
    }
  }

  lemma {:induction false} BasenameStartsFolder(path: string) returns (prefix: string)
    ensures path == prefix + ExecutableBasename(path) && EndsFolder(prefix)
  {
    if path == [] || Last(path) == '/' || Last(path) == '\\' {
      prefix := path;
    } else {
      prefix := BasenameStartsFolder(path[..|path| - 1]);
    }
  }

  lemma {:induction false} BasenameOf(prefix: string, base: string)
    requires EndsFolder(prefix) && '/' !in base && '\\' !in base
    ensures ExecutableBasename(prefix + base) == base
  {
    var path := prefix + base;
    if base == "" {
      assert path == prefix;
    } else {
      assert path[..|path| - 1] == prefix + base[..|base| - 1];
      assert Last(path) == Last(base) && Last(base) in base;
      BasenameOf(prefix, base[..|base| - 1]);
    }
  }

  lemma SpellingHasNoFolder(base: string, name: string)
    requires IsWord(name) && Spells(base, name)
    ensures '/' !in base && '\\' !in base
    ensures forall i :: 0 <= i < |base| ==> !Blank(base[i]) && !SeparatesTokens(base[i])
  {
    forall i | 0 <= i < |base|
      ensures base[i] != '/' && base[i] != '\\' && !Blank(base[i]) && !SeparatesTokens(base[i])
    {
      assert AnyCase(base[i], name[i]);
    }
  }

  lemma BasenameNames(path: string, name: string)
    requires IsWord(name)
    ensures EqIgnoreCase(ExecutableBasename(path), name) <==> exists prefix, base :: NamedAt(path, prefix, base, name)
  {
    IgnoringCaseIsSpelling(ExecutableBasename(path), name);
    if EqIgnoreCase(ExecutableBasename(path), name) {
      var prefix := BasenameStartsFolder(path);
      assert NamedAt(path, prefix, ExecutableBasename(path), name);
    }
    if prefix, base :| NamedAt(path, prefix, base, name) {
      SpellingHasNoFolder(base, name);
      BasenameOf(prefix, base);
    }
  }

  lemma NamesAreExact(sample: Sample, name: string)
    requires IsWord(name)
    ensures HasExactExecutableName(sample, name) <==> IsNamed(sample, name)
  {
    BasenameNames(sample.executable, name);
    BasenameNames(sample.name, name);
    if prefix, base :| NamedAt(sample.executable, prefix, base, name) {
      assert IsNamed(sample, name);
    }
    if prefix, base :| NamedAt(sample.name, prefix, base, name) {
      assert IsNamed(sample, name);
    }
  }

  lemma BetweenIsHeld(line: string, word: string, i: nat, j: nat)
    requires IsWord(word) && i <= j <= |line| && TokenBetween(line, word, i, j)
    ensures TokenAt(line, line[..i], line[i..j], line[j..], word)
  {
    IgnoringCaseIsSpelling(line[i..j], word);
  }

  lemma HeldIsBetween(line: string, before: string, token: string, after: string, word: string)
    requires IsWord(word) && TokenAt(line, before, token, after, word)
    ensures TokenBetween(line, word, |before|, |before| + |token|)
  {
    PartsInPlace(before, token, after);
    IgnoringCaseIsSpelling(token, word);
    SpellingHasNoFolder(token, word);
  }

  lemma PartsInPlace(before: string, token: string, after: string)
    ensures var line, i, j := before + token + after, |before|, |before| + |token|;
      && line[i..j] == token
      && (i > 0 ==> line[i - 1] == Last(before))
      && (j < |line| ==> line[j] == after[0])
      && (forall k :: i <= k < j ==> line[k] == token[k - i])
  {
  }

  lemma TokensAreHeld(line: string, word: string)
    requires IsWord(word)
    ensures HasCommandToken(line, word) <==> HoldsToken(line, word)
  {
    if HasCommandToken(line, word) {
      var i: nat, j: nat :| i <= j <= |line| && TokenBetween(line, word, i, j);
      BetweenIsHeld(line, word, i, j);
    }
    if before, token, after :| TokenAt(line, before, token, after, word) {
      HeldIsBetween(line, before, token, after, word);
    }
  }

  // The Codex channel.

  /** An executable called `codex` or `codex.exe`, wherever it lies. */
  ghost predicate IsCodex(sample: Sample) {
    IsNamed(sample, "codex") || IsNamed(sample, "codex.exe")
  }

  /** A Codex process is an app server if its command line holds the token
      `app-server`, otherwise an SDK one if it holds `exec`; nothing else has a
      channel. */
  lemma ChannelsAreNamed(sample: Sample)
    ensures CodexChannelOf(sample) == Some(AppServer) <==>
      IsCodex(sample) && HoldsToken(sample.commandLine, "app-server")
    ensures CodexChannelOf(sample) == Some(Sdk) <==>
      IsCodex(sample) && !HoldsToken(sample.commandLine, "app-server") && HoldsToken(sample.commandLine, "exec")
  {
    NamesAreExact(sample, "codex");
    NamesAreExact(sample, "codex.exe");
    TokensAreHeld(sample.commandLine, "app-server");
    TokensAreHeld(sample.commandLine, "exec");
  }

  /** The sandbox of a platform, or the resource helper, with or without suffix. */
  lemma HelpersAreNamed(sample: Sample)
    ensures IsCodexResourceHelper(sample) <==>
      || IsNamed(sample, "codex-sandbox") || IsNamed(sample, "codex-sandbox.exe")
      || IsNamed(sample, "codex-linux-sandbox") || IsNamed(sample, "codex-linux-sandbox.exe")
      || IsNamed(sample, "codex-macos-sandbox") || IsNamed(sample, "codex-macos-sandbox.exe")
      || IsNamed(sample, "codex-windows-sandbox") || IsNamed(sample, "codex-windows-sandbox.exe")
      || IsNamed(sample, "codex-resource-helper") || IsNamed(sample, "codex-resource-helper.exe")
  {
    SandboxesAreNamed(sample);
    OtherHelpersAreNamed(sample);
  }

  lemma SandboxesAreNamed(sample: Sample)
    ensures HasExactExecutableName(sample, "codex-sandbox") <==> IsNamed(sample, "codex-sandbox")
    ensures HasExactExecutableName(sample, "codex-sandbox.exe") <==> IsNamed(sample, "codex-sandbox.exe")
    ensures HasExactExecutableName(sample, "codex-linux-sandbox") <==> IsNamed(sample, "codex-linux-sandbox")
    ensures HasExactExecutableName(sample, "codex-linux-sandbox.exe") <==> IsNamed(sample, "codex-linux-sandbox.exe")
    ensures HasExactExecutableName(sample, "codex-macos-sandbox") <==> IsNamed(sample, "codex-macos-sandbox")
  {
    NamesAreExact(sample, "codex-sandbox");
    NamesAreExact(sample, "codex-sandbox.exe");
    NamesAreExact(sample, "codex-linux-sandbox");
    NamesAreExact(sample, "codex-linux-sandbox.exe");
    NamesAreExact(sample, "codex-macos-sandbox");
  }

  lemma OtherHelpersAreNamed(sample: Sample)
    ensures HasExactExecutableName(sample, "codex-macos-sandbox.exe") <==> IsNamed(sample, "codex-macos-sandbox.exe")
    ensures HasExactExecutableName(sample, "codex-windows-sandbox") <==> IsNamed(sample, "codex-windows-sandbox")
    ensures HasExactExecutableName(sample, "codex-windows-sandbox.exe")
       <==> IsNamed(sample, "codex-windows-sandbox.exe")
    ensures HasExactExecutableName(sample, "codex-resource-helper") <==> IsNamed(sample, "codex-resource-helper")
    ensures HasExactExecutableName(sample, "codex-resource-helper.exe")
       <==> IsNamed(sample, "codex-resource-helper.exe")
  {
    NamesAreExact(sample, "codex-macos-sandbox.exe");
    NamesAreExact(sample, "codex-windows-sandbox");
    NamesAreExact(sample, "codex-windows-sandbox.exe");
    NamesAreExact(sample, "codex-resource-helper");
    NamesAreExact(sample, "codex-resource-helper.exe");
  }

  lemma MarkersAreContained(value: string)
    ensures ContainsMarker(value) <==> Contains(value, "plugin-host")
  {
    var word := "plugin-host";
    assert word == PLUGIN_HOST_MARKER && |word| == 11;
    if ContainsMarker(value) {
      var i :| 0 <= i <= |value| && MarkerAt(value, i);
      IgnoringCaseIsSpelling(value[i..i + 11], word);
      assert value == value[..i] + value[i..i + 11] + value[i + 11..];
      assert ContainsAt(value, value[..i], value[i..i + 11], value[i + 11..], word);
    }
    if before, part, after :| ContainsAt(value, before, part, after, word) {
      IgnoringCaseIsSpelling(part, word);
      assert value[|before|..|before| + 11] == part;
      assert MarkerAt(value, |before|);
    }
  }

  /** A plugin host names itself anywhere in path, name or command line. */
  lemma PluginHostsAreMarked(sample: Sample)
    ensures IsPluginHost(sample) <==>
      || Contains(sample.executable, "plugin-host")
      || Contains(sample.name, "plugin-host")
      || Contains(sample.commandLine, "plugin-host")
  {
    MarkersAreContained(sample.executable);
    MarkersAreContained(sample.name);
    MarkersAreContained(sample.commandLine);
  }

  // Where a recognised process is charged.

  /** A process of the tree that is nobody special by position or marker. */
  ghost predicate Ordinary(rows: Rows, root: Pid, backend: Option<Pid>, sample: Sample) {
    && sample.pid in Reach(ParentsOf(rows), root)
    && sample.pid in rows && rows[sample.pid] == sample
    && sample.pid != root && Some(sample.pid) != backend
    && !Contains(sample.executable, "plugin-host")
    && !Contains(sample.name, "plugin-host")
    && !Contains(sample.commandLine, "plugin-host")
  }

  lemma OwnChannelWins(rows: Rows, root: Pid, pid: Pid)
    requires Reachable(ParentsOf(rows), root, pid) && pid in rows && CodexChannelOf(rows[pid]).Some?
    ensures Channel(rows, root, pid) == CodexChannelOf(rows[pid])
  {
    var n: nat :| Below(ParentsOf(rows), root, pid, n) && Channel(rows, root, pid) == ChannelAt(rows, root, pid, n);
  }

  lemma MemberIsCharged(rows: Rows, pids: set<Pid>, pid: Pid, cpuCount: nat)
    requires pids <= rows.Keys && pid in pids
    ensures NormalizeCpu(Usage(rows, pids), cpuCount).count >= 1
    ensures NormalizeCpu(Usage(rows, pids), cpuCount).memory >= rows[pid].memory
  {
    LoadWithout(rows, pids, pid);
    assert |pids| == |pids - {pid}| + 1;
  }

  /** Counted in a group, with at least the memory of this process. */
  predicate Charged(group: UsageGroup, sample: Sample) {
    group.count >= 1 && group.memory >= sample.memory
  }

  lemma CodexProcessesBelong(rows: Rows, root: Pid, backend: Option<Pid>, sample: Sample)
    requires Ordinary(rows, root, backend, sample) && CodexChannelOf(sample).Some?
    ensures Belongs(rows, root, backend, sample.pid, CodexAgent)
    ensures !Belongs(rows, root, backend, sample.pid, CodexCommands)
    ensures Belongs(rows, root, backend, sample.pid, CodexAppServer) <==> CodexChannelOf(sample) == Some(AppServer)
    ensures Belongs(rows, root, backend, sample.pid, CodexSdk) <==> CodexChannelOf(sample) == Some(Sdk)
  {
    PluginHostsAreMarked(sample);
    OwnChannelWins(rows, root, sample.pid);
  }

  /** An ordinary `codex app-server` process is counted as an app server
      and an ordinary `codex exec` one as an SDK process, each under the
      agent and not under the other. */
  lemma CodexProcessesAreCharged(snapshot: Snapshot, rows: Rows, root: Pid, backend: Option<Pid>, cpuCount: nat,
                                 sample: Sample)
    requires Attributes(snapshot, rows, root, backend, cpuCount)
    requires Ordinary(rows, root, backend, sample) && IsCodex(sample)
    ensures HoldsToken(sample.commandLine, "app-server") ==>
      && Charged(snapshot.codexAppServer, sample) && Charged(snapshot.codexAgent, sample)
      && !Belongs(rows, root, backend, sample.pid, CodexSdk) && !Belongs(rows, root, backend, sample.pid, CodexCommands)
    ensures !HoldsToken(sample.commandLine, "app-server") && HoldsToken(sample.commandLine, "exec") ==>
      && Charged(snapshot.codexSdk, sample) && Charged(snapshot.codexAgent, sample)
      && !Belongs(rows, root, backend, sample.pid, CodexAppServer)
      && !Belongs(rows, root, backend, sample.pid, CodexCommands)
  {
    ChannelsAreNamed(sample);
    if CodexChannelOf(sample).Some? {
      CodexProcessesBelong(rows, root, backend, sample);
      GroupIsCharged(snapshot, rows, root, backend, cpuCount, sample.pid, CodexAgent);
      GroupIsCharged(snapshot, rows, root, backend, cpuCount, sample.pid, CodexAppServer);
      GroupIsCharged(snapshot, rows, root, backend, cpuCount, sample.pid, CodexSdk);
    }
  }

  lemma GroupIsCharged(snapshot: Snapshot, rows: Rows, root: Pid, backend: Option<Pid>, cpuCount: nat,
                       pid: Pid, group: Group)
    requires Attributes(snapshot, rows, root, backend, cpuCount) && pid in Reach(ParentsOf(rows), root)
    ensures Belongs(rows, root, backend, pid, group) ==> Charged(UsageOf(snapshot, group), rows[pid])
  {
    if Belongs(rows, root, backend, pid, group) {
      var members := Members(rows, root, backend, Reach(ParentsOf(rows), root), group);
      MemberIsCharged(rows, members, pid, cpuCount);
    }
  }

  /** A child process with no channel of its own is charged with its parent's. */
  lemma CommandsFollowTheirParent(rows: Rows, root: Pid, backend: Option<Pid>, parent: Pid, sample: Sample)
    requires Ordinary(rows, root, backend, sample) && sample.parent == Some(parent)
    requires parent in Reach(ParentsOf(rows), root) && parent in rows && IsCodex(rows[parent])
    requires HoldsToken(rows[parent].commandLine, "app-server") || HoldsToken(rows[parent].commandLine, "exec")
    requires !IsCodex(sample)
    ensures Belongs(rows, root, backend, sample.pid, CodexAgent)
    ensures !IsCodexResourceHelper(sample) ==> Belongs(rows, root, backend, sample.pid, CodexCommands)
    ensures IsCodexResourceHelper(sample) ==>
      if HoldsToken(rows[parent].commandLine, "app-server")
      then Belongs(rows, root, backend, sample.pid, CodexAppServer)
      else Belongs(rows, root, backend, sample.pid, CodexSdk)
  {
    PluginHostsAreMarked(sample);
    ChannelsAreNamed(sample);
    ChannelsAreNamed(rows[parent]);
    OwnChannelWins(rows, root, parent);
    ChannelOfChild(rows, root, parent, sample.pid);
  }
}
