/**
  Looking a typed line up in a command registry (`findCyberpunkCommand`,
  `findCommand`) and proposing registry names for a prefix
  (`getCyberpunkCommandSuggestions`, `getCommandSuggestions`).  Both
  terminals use the same two algorithms over their own registries; only the
  entries and the cap on suggestions differ.  A registry is its entries in
  key order, which is the order the source's object literal lists them.
 */
module CommandRegistry {
  import opened Wrappers
  import opened Text
  import opened TerminalTypes

  /** The keys of a registry, in order. */
  function Names(reg: seq<CommandInfo>): (r: seq<string>)
    ensures |r| == |reg| && forall k :: 0 <= k < |reg| ==> r[k] == reg[k].name
  {
    seq(|reg|, k requires 0 <= k < |reg| => reg[k].name)
  }

  /** The entry answers to `key`, by its name or by one of its aliases. */
  predicate Answers(e: CommandInfo, key: string)
  {
    e.name == key || key in e.aliases
  }

  /** The line as lookup sees it: lower-cased, then trimmed. */
  function Normalize(input: string): string
  {
    Trim(Lower(input))
  }

  // -------------------------------------------------------------- lookup

  /** The first entry at position `k` or later that lists `key` as an alias. */
  function AliasFrom(reg: seq<CommandInfo>, key: string, k: nat): (r: Option<nat>)
    requires k <= |reg|
    ensures r.Some? ==> k <= r.value < |reg| && key in reg[r.value].aliases
    ensures r.Some? ==> forall j :: k <= j < r.value ==> key !in reg[j].aliases
    ensures r.None? ==> forall j :: k <= j < |reg| ==> key !in reg[j].aliases
    decreases |reg| - k
  {
    if k == |reg| then None
    else if key in reg[k].aliases then Some(k)
    else AliasFrom(reg, key, k + 1)
  }

  /** The position of the entry a line selects: the entry keyed by the
      normalised line, else the first entry that lists it as an alias. */
  function Find(reg: seq<CommandInfo>, input: string): (r: Option<nat>)
    ensures r.Some? ==> r.value < |reg| && Answers(reg[r.value], Normalize(input))
  {
    var key := Normalize(input);
    match IndexOf(Names(reg), key)
    case Some(k) => Some(k)
    case None => AliasFrom(reg, key, 0)
  }

  /** Lookup fails exactly when no entry answers to the normalised line. */
  lemma FindComplete(reg: seq<CommandInfo>, input: string)
    ensures Find(reg, input).None? <==> forall j :: 0 <= j < |reg| ==> !Answers(reg[j], Normalize(input))
  {
    var key := Normalize(input);
    if Find(reg, input).None? {
      assert key !in Names(reg);
      forall j | 0 <= j < |reg| ensures !Answers(reg[j], key) {
        assert Names(reg)[j] == reg[j].name;
      }
    }
  }

  /** A key beats every alias: when some entry is named by the line, that
      entry is found; when none is, the first entry listing the line as an
      alias is found. */
  lemma FindPrefersKeys(reg: seq<CommandInfo>, input: string)
    ensures var key := Normalize(input); var r := Find(reg, input);
      ((exists j :: 0 <= j < |reg| && reg[j].name == key) ==> r.Some? && reg[r.value].name == key) &&
      ((forall j :: 0 <= j < |reg| ==> reg[j].name != key) ==>
         (r.Some? ==> forall j :: 0 <= j < r.value ==> key !in reg[j].aliases))
  {
    var key := Normalize(input);
    if exists j :: 0 <= j < |reg| && reg[j].name == key {
      var j :| 0 <= j < |reg| && reg[j].name == key;
      assert Names(reg)[j] == key;
    }
  }

  /** A line selects entry `k` by key when `k` is the first entry with
      that name. */
  lemma FindByName(reg: seq<CommandInfo>, input: string, k: nat)
    requires k < |reg| && reg[k].name == Normalize(input)
    requires forall j :: 0 <= j < k ==> reg[j].name != Normalize(input)
    ensures Find(reg, input) == Some(k)
  {
    var names := Names(reg);
    assert names[k] == Normalize(input);
  }

  /** A line that names no entry selects entry `k` when `k` is the first
      entry listing it as an alias. */
  lemma FindByAlias(reg: seq<CommandInfo>, input: string, k: nat)
    requires forall j :: 0 <= j < |reg| ==> reg[j].name != Normalize(input)
    requires k < |reg| && Normalize(input) in reg[k].aliases
    requires forall j :: 0 <= j < k ==> Normalize(input) !in reg[j].aliases
    ensures Find(reg, input) == Some(k)
  {
    var names := Names(reg);
    assert Normalize(input) !in names;
  }

  /** A word with no capital letter and no white space at either end is its
      own normalised form. */
  lemma NormalizePlain(w: string)
    requires forall i :: 0 <= i < |w| ==> !('A' <= w[i] <= 'Z')
    requires w != [] ==> !IsWhitespace(w[0]) && !IsWhitespace(w[|w| - 1])
    ensures Normalize(w) == w
  {
    assert Lower(w) == w;
    assert LeadingSpace(w) == 0;
    assert TrimStart(w) == w;
    assert TrailingSpace(w) == 0;
  }

  /** The lookup loop of the source: a direct key match, then a scan over
      the entries in order for one whose aliases include the line. */
  method FindEntry(reg: seq<CommandInfo>, input: string) returns (r: Option<nat>)
    ensures r == Find(reg, input)
  {
    var key := Normalize(input);
    r := IndexOf(Names(reg), key);
    if r.Some? {
      return;
    }
    var k := 0;
    while k < |reg|
      invariant 0 <= k <= |reg|
      invariant AliasFrom(reg, key, 0) == AliasFrom(reg, key, k)
    {
      if key in reg[k].aliases {
        return Some(k);
      }
      k := k + 1;
    }
  }

  /** A line that already is trimmed selects its entry by its lower-case form. */
  lemma NormalizeTrimmed(line: string)
    requires Trim(line) == line
    ensures Normalize(line) == Lower(line)
  {
    TrimLower(line);
  }

  /** The whole line is the key: when the entry a trimmed line selects has
      no space in its name or aliases, the line has no space either, so its
      single-space split has one piece and the command receives no
      arguments. */
  lemma WholeLineLookup(reg: seq<CommandInfo>, line: string)
    requires Trim(line) == line
    requires Find(reg, line).Some?
    requires var e := reg[Find(reg, line).value];
      ' ' !in e.name && forall a :: a in e.aliases ==> ' ' !in a
    ensures ' ' !in line
    ensures Split(line, ' ')[1..] == []
  {
    NormalizeTrimmed(line);
    var key := Lower(line);
    assert ' ' !in key;
    forall i | 0 <= i < |line| ensures line[i] != ' ' {
      assert key[i] == LowerChar(line[i]);
    }
    SplitLast(line, ' ');
  }

  // --------------------------------------------------------- suggestions

  /** The first `n` aliases that start with `prefix`, in order. */
  function AliasMatches(aliases: seq<string>, prefix: string, n: nat): (r: seq<string>)
    requires n <= |aliases|
    ensures forall x :: x in r ==> x in aliases[..n] && StartsWith(x, prefix)
  {
    if n == 0 then []
    else AliasMatches(aliases, prefix, n - 1) + (if StartsWith(aliases[n - 1], prefix) then [aliases[n - 1]] else [])
  }

  /** The entry's key, when it starts with `prefix`. */
  function NameMatch(e: CommandInfo, prefix: string): seq<string>
  {
    if StartsWith(e.name, prefix) then [e.name] else []
  }

  /** What one entry contributes: its key, then its aliases, each when it
      starts with `prefix`. */
  function EntryMatches(e: CommandInfo, prefix: string): seq<string>
  {
    NameMatch(e, prefix) + AliasMatches(e.aliases, prefix, |e.aliases|)
  }

  /** The contributions of the first `n` entries, in registry order. */
  function Candidates(reg: seq<CommandInfo>, prefix: string, n: nat): (r: seq<string>)
    requires n <= |reg|
    ensures forall x :: x in r ==> StartsWith(x, prefix)
  {
    if n == 0 then [] else Candidates(reg, prefix, n - 1) + EntryMatches(reg[n - 1], prefix)
  }

  /** `a.slice(0, cap)`. */
  function Take<T>(a: seq<T>, cap: nat): (r: seq<T>)
    ensures |r| == if |a| <= cap then |a| else cap
    ensures r == a[..|r|]
  {
    if |a| <= cap then a else a[..cap]
  }

  /** The suggestions for what has been typed: every key and alias that
      starts with the lower-cased input, in registry order, without removing
      duplicates, cut to `cap`. */
  function Suggestions(reg: seq<CommandInfo>, input: string, cap: nat): (r: seq<string>)
    ensures |r| <= cap
    ensures forall x :: x in r ==> StartsWith(x, Lower(input))
  {
    Take(Candidates(reg, Lower(input), |reg|), cap)
  }

  /** Every alias that starts with the prefix is listed. */
  lemma {:induction false} AliasMatchesComplete(aliases: seq<string>, prefix: string, n: nat)
    requires n <= |aliases|
    ensures forall i :: 0 <= i < n && StartsWith(aliases[i], prefix) ==> aliases[i] in AliasMatches(aliases, prefix, n)
  {
    if n > 0 {
      AliasMatchesComplete(aliases, prefix, n - 1);
    }
  }

  /** Every key and alias of one entry that starts with the prefix is among
      what the entry contributes. */
  lemma EntryMatchesComplete(e: CommandInfo, prefix: string)
    ensures StartsWith(e.name, prefix) ==> e.name in EntryMatches(e, prefix)
    ensures forall a :: a in e.aliases && StartsWith(a, prefix) ==> a in EntryMatches(e, prefix)
  {
    AliasMatchesComplete(e.aliases, prefix, |e.aliases|);
    forall a | a in e.aliases && StartsWith(a, prefix)
      ensures a in AliasMatches(e.aliases, prefix, |e.aliases|)
    {
      var i :| 0 <= i < |e.aliases| && e.aliases[i] == a;
    }
  }

  /** Every key and alias of the first `n` entries that starts with the
      prefix is a candidate. */
  lemma {:induction false} CandidatesComplete(reg: seq<CommandInfo>, prefix: string, n: nat)
    requires n <= |reg|
    ensures forall j :: 0 <= j < n && StartsWith(reg[j].name, prefix) ==> reg[j].name in Candidates(reg, prefix, n)
    ensures forall j, a :: 0 <= j < n && a in reg[j].aliases && StartsWith(a, prefix) ==> a in Candidates(reg, prefix, n)
  {
    if n > 0 {
      CandidatesComplete(reg, prefix, n - 1);
      EntryMatchesComplete(reg[n - 1], prefix);
    }
  }

  /** When the cap is not reached, every key and alias that starts with the
      lower-cased input is suggested. */
  lemma SuggestionsComplete(reg: seq<CommandInfo>, input: string, cap: nat)
    requires |Candidates(reg, Lower(input), |reg|)| <= cap
    ensures forall j :: 0 <= j < |reg| && StartsWith(reg[j].name, Lower(input)) ==>
      reg[j].name in Suggestions(reg, input, cap)
    ensures forall j, a :: 0 <= j < |reg| && a in reg[j].aliases && StartsWith(a, Lower(input)) ==>
      a in Suggestions(reg, input, cap)
  {
    CandidatesComplete(reg, Lower(input), |reg|);
  }

  /** The inner loop of the source: the aliases that start with `prefix`. */
  method CollectAliases(aliases: seq<string>, prefix: string) returns (m: seq<string>)
    ensures m == AliasMatches(aliases, prefix, |aliases|)
  {
    m := [];
    var j := 0;
    while j < |aliases|
      invariant 0 <= j <= |aliases|
      invariant m == AliasMatches(aliases, prefix, j)
    {
      if StartsWith(aliases[j], prefix) {
        m := m + [aliases[j]];
      }
      j := j + 1;
    }
  }

  /** The suggestion loop of the source: for each entry its key, then each
      of its aliases, when they start with the lower-cased input; the list is
      cut to `cap` at the end. */
  method CollectSuggestions(reg: seq<CommandInfo>, input: string, cap: nat) returns (r: seq<string>)
    ensures r == Suggestions(reg, input, cap)
  {
    var prefix := Lower(input);
    var found: seq<string> := [];
    var k := 0;
    while k < |reg|
      invariant 0 <= k <= |reg|
      invariant found == Candidates(reg, prefix, k)
    {
      var e := reg[k];
      var named: seq<string> := [];
      if StartsWith(e.name, prefix) {
        named := [e.name];
      }
      var aliased := CollectAliases(e.aliases, prefix);
      found := found + (named + aliased);
      k := k + 1;
    }
    r := Take(found, cap);
  }
}
