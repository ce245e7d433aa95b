/** The module-3 attribute matcher: proposal attributes are re-matched against a category
    dictionary by normalized exact comparison; what does not match is dropped and reported. */
module Matcher {
  import opened Wrappers
  import opened Text

  // --- Normalization ---

  /** How many characters before the first white space. */
  function WordLength(s: string): (n: nat)
    ensures n <= |s| && (s != [] && !IsSpace(s[0]) ==> n > 0)
  {
    if s == [] || IsSpace(s[0]) then 0 else 1 + WordLength(s[1..])
  }

  /** Rust's `split_whitespace`. */
  function Words(s: string): (words: seq<string>)
    ensures words == [] <==> TrimStart(s) == []
    ensures words != [] ==> words[0] != []
    decreases |s|
  {
    TrimStartShrinks(s);
    var t := TrimStart(s);
    if t == [] then [] else [t[..WordLength(t)]] + Words(t[WordLength(t)..])
  }

  function JoinWords(words: seq<string>): string {
    if words == [] then [] else if |words| == 1 then words[0] else words[0] + " " + JoinWords(words[1..])
  }

  /** A word is its own only word. */
  lemma {:induction false} WordsOfWord(w: string)
    requires IsWord(w)
    ensures Words(w) == [w]
  {
    WholeWord(w);
    assert w[0] in w;
    assert TrimStart(w) == w && Words(w[|w|..]) == [];
    assert w[..|w|] == w;
  }

  lemma {:induction false} WholeWord(w: string)
    requires forall c | c in w :: !IsSpace(c)
    ensures WordLength(w) == |w|
  {
    if w != "" {
      assert w[0] in w && forall c | c in w[1..] :: c in w;
      WholeWord(w[1..]);
    }
  }

  /** Any white space separates words, so together with the above the words of a text are its
      longest stretches without white space. */
  lemma {:induction false} WordsSplit(s: string, c: char, t: string)
    requires IsSpace(c)
    ensures Words(s + [c] + t) == Words(s) + Words(t)
    decreases |s|
  {
    var all := s + [c] + t;
    TrimStartShrinks(s);
    if TrimStart(s) == "" {
      TrimStartNothing(s);
      assert AllSpace(s + [c]);
      WordsAfterSpace(s + [c], t);
    } else {
      var n := WordLength(TrimStart(s));
      FirstWordOfLonger(s, c, t);
      WordsSplit(TrimStart(s)[n..], c, t);
    }
  }

  lemma FirstWordOfLonger(s: string, c: char, t: string)
    requires IsSpace(c) && TrimStart(s) != ""
    ensures var u := TrimStart(s); var n := WordLength(u);
            Words(s + [c] + t) == [u[..n]] + Words(u[n..] + [c] + t)
  {
    var u := TrimStart(s);
    TrimOfLonger(s, [c] + t);
    assert s + [c] + t == s + ([c] + t);
    WordEndsEarly(u, c, t);
    var n := WordLength(u);
    var whole := u + ([c] + t);
    assert whole[..n] == u[..n] && whole[n..] == u[n..] + [c] + t;
    TrimStartShrinks(s);
    hide TrimStart, WordLength;
  }

  lemma {:induction false} SpaceSkipped(a: string, t: string)
    requires AllSpace(a)
    ensures TrimStart(a + t) == TrimStart(t)
  {
    if a != "" {
      assert a[0] in a && (a + t)[1..] == a[1..] + t && forall c | c in a[1..] :: c in a;
      SpaceSkipped(a[1..], t);
    } else {
      assert a + t == t;
    }
  }

  lemma WordsAfterSpace(a: string, t: string)
    requires AllSpace(a)
    ensures Words(a + t) == Words(t)
  {
    SpaceSkipped(a, t);
  }

  lemma {:induction false} TrimOfLonger(s: string, t: string)
    requires TrimStart(s) != ""
    ensures TrimStart(s + t) == TrimStart(s) + t
  {
    if IsSpace(s[0]) {
      assert (s + t)[1..] == s[1..] + t;
      TrimOfLonger(s[1..], t);
    }
  }

  lemma {:induction false} WordEndsEarly(u: string, c: char, t: string)
    requires IsSpace(c)
    ensures WordLength(u + ([c] + t)) == WordLength(u)
  {
    if u != "" && !IsSpace(u[0]) {
      assert (u + ([c] + t))[1..] == u[1..] + ([c] + t);
      WordEndsEarly(u[1..], c, t);
    }
  }

  /** No word is empty or holds white space. */
  predicate IsWord(w: string) {
    w != "" && forall c | c in w :: !IsSpace(c)
  }

  lemma {:induction false} WordsAreWords(s: string)
    ensures forall w | w in Words(s) :: IsWord(w)
    decreases |s|
  {
    TrimStartShrinks(s);
    var t := TrimStart(s);
    if t != "" {
      InsideWord(t);
      WordsAreWords(t[WordLength(t)..]);
    }
  }

  lemma {:induction false} InsideWord(t: string)
    ensures forall c | c in t[..WordLength(t)] :: !IsSpace(c)
  {
    if t != "" && !IsSpace(t[0]) {
      InsideWord(t[1..]);
      assert t[..WordLength(t)] == [t[0]] + t[1..][..WordLength(t[1..])];
    }
  }

  /** Collapsing keeps the words: joined words split into the same words again. */
  lemma {:induction false} JoinedWords(words: seq<string>)
    requires forall w | w in words :: IsWord(w)
    ensures Words(JoinWords(words)) == words
  {
    if |words| == 1 {
      assert IsWord(words[0]);
      WordsOfWord(words[0]);
    } else if words != [] {
      assert words[0] in words && forall w | w in words[1..] :: w in words;
      JoinedWords(words[1..]);
      WordsOfWord(words[0]);
      WordsSplit(words[0], ' ', JoinWords(words[1..]));
    }
  }

  function LowerAll(words: seq<string>): (lower: seq<string>)
    ensures |lower| == |words| && forall i | 0 <= i < |words| :: lower[i] == AsciiLower(words[i])
  {
    if words == [] then [] else [AsciiLower(words[0])] + LowerAll(words[1..])
  }

  lemma {:induction false} LowerWords(words: seq<string>)
    ensures AsciiLower(JoinWords(words)) == JoinWords(LowerAll(words))
  {
    if |words| > 1 {
      LowerWords(words[1..]);
      LowerAppend(words[0], " " + JoinWords(words[1..]));
      LowerAppend(" ", JoinWords(words[1..]));
      assert words[0] + " " + JoinWords(words[1..]) == words[0] + (" " + JoinWords(words[1..]));
      var lower := LowerAll(words);
      assert lower[1..] == LowerAll(words[1..]);
      assert lower[0] + " " + JoinWords(lower[1..]) == lower[0] + (" " + JoinWords(lower[1..]));
    }
  }

  lemma LowerAppend(s: string, t: string)
    ensures AsciiLower(s + t) == AsciiLower(s) + AsciiLower(t)
  {
  }

  /** Texts match exactly if they have the same words, whatever the white space between, before
      and behind them and whatever the case of their letters. */
  lemma MatchIgnoresSpaceAndCase(s: string, t: string)
    ensures Normalize(AsciiLower, s) == Normalize(AsciiLower, t) <==>
              && |Words(s)| == |Words(t)|
              && forall i | 0 <= i < |Words(s)| :: AsciiLower(Words(s)[i]) == AsciiLower(Words(t)[i])
  {
    hide Words, JoinWords, AsciiLower, LowerAll, IsWord;
    var a, b := LowerAll(Words(s)), LowerAll(Words(t));
    LowerWords(Words(s));
    LowerWords(Words(t));
    LoweredWords(s);
    LoweredWords(t);
    JoinedWords(a);
    JoinedWords(b);
    assert |a| == |b| && (forall i | 0 <= i < |a| :: a[i] == b[i]) ==> a == b;
    assert JoinWords(a) == JoinWords(b) <==> a == b;
  }

  lemma LoweredWords(s: string)
    ensures forall w | w in LowerAll(Words(s)) :: IsWord(w)
  {
    hide AsciiLower;
    WordsAreWords(s);
    forall w | w in LowerAll(Words(s)) ensures IsWord(w) {
      var i :| 0 <= i < |Words(s)| && LowerAll(Words(s))[i] == w;
      assert Words(s)[i] in Words(s);
      LoweredWord(Words(s)[i]);
    }
  }

  lemma LoweredWord(w: string)
    requires IsWord(w)
    ensures IsWord(AsciiLower(w))
  {
    var lower := AsciiLower(w);
    forall i | 0 <= i < |w| ensures !IsSpace(lower[i]) {
      assert w[i] in w && lower[i] == LowerChar(w[i]);
    }
  }

  /** `fold` stands for Unicode lower-casing, of which only this is used: it loses no text. */
  ghost predicate IsFold(fold: string -> string) {
    forall s: string :: fold(s) == "" <==> s == ""
  }

  /** Collapse white space and fold case. */
  function Normalize(fold: string -> string, s: string): string {
    fold(JoinWords(Words(s)))
  }

  lemma BlankNormalizes(fold: string -> string, s: string)
    requires IsFold(fold)
    ensures Normalize(fold, s) == "" <==> AllSpace(s)
  {
    TrimStartNothing(s);
  }

  /** A trimmed name is empty exactly if its normal form is: the matcher's test for an empty
      name and the prefetcher's agree. */
  lemma EmptyNamesAgree(fold: string -> string, s: string)
    requires IsFold(fold)
    ensures Normalize(fold, Trim(s)) == "" <==> Trim(s) == ""
  {
    BlankNormalizes(fold, Trim(s));
    TrimStartShrinks(s);
    TrimEndTrimmed(TrimStart(s));
    if Trim(s) != [] {
      assert Trim(s)[0] in Trim(s);
    }
  }

  // --- Data ---

  datatype Attribute = Attribute(name: string, values: seq<string>)

  datatype Definition = Definition(id: nat, name: string, dictionaryId: nat) {
    predicate IsDictionary() {
      dictionaryId != 0
    }
  }

  datatype Entry = Entry(id: nat, text: string)
  type Tables = map<nat, seq<Entry>>

  datatype ResolvedValue = FreeText(text: string) | DictionaryValue(id: nat)
  datatype Resolved = Resolved(attribute: nat, values: seq<ResolvedValue>)
  datatype Matched = Matched(attribute: nat, name: string, values: seq<string>)
  datatype Reason = EmptyName | UnknownName | UnknownValue | NothingToWrite
  datatype Drop = Drop(name: string, value: Option<string>, reason: Reason)

  /** What is written, what the preview shows, and what was dropped. */
  datatype Outcome = Outcome(resolved: seq<Resolved>, matched: seq<Matched>, dropped: seq<Drop>) {
    function Then(next: Outcome): Outcome {
      Outcome(resolved + next.resolved, matched + next.matched, dropped + next.dropped)
    }
  }

  const NOTHING: Outcome := Outcome([], [], [])

  /** The position, from `i` on, of the first definition whose normalized name is `name`. */
  function FirstNamed(fold: string -> string, dictionary: seq<Definition>, name: string, i: nat): (r: nat)
    requires i <= |dictionary|
    ensures i <= r <= |dictionary|
    ensures forall j | i <= j < r :: Normalize(fold, dictionary[j].name) != name
    ensures r < |dictionary| ==> Normalize(fold, dictionary[r].name) == name
    decreases |dictionary| - i
  {
    if i == |dictionary| || Normalize(fold, dictionary[i].name) == name then i
    else FirstNamed(fold, dictionary, name, i + 1)
  }

  function FindDefinition(fold: string -> string, dictionary: seq<Definition>, name: string): (r: Option<Definition>)
    ensures r.Some? ==> r.value in dictionary && Normalize(fold, r.value.name) == name
    ensures r.None? ==> forall d | d in dictionary :: Normalize(fold, d.name) != name
  {
    var i := FirstNamed(fold, dictionary, name, 0);
    if i < |dictionary| then Some(dictionary[i]) else None
  }

  /** The first entry whose normalized text is `text`. */
  function FindEntry(fold: string -> string, entries: seq<Entry>, text: string): (r: Option<Entry>)
    ensures r.Some? ==> r.value in entries && Normalize(fold, r.value.text) == text
    ensures r.None? ==> forall entry | entry in entries :: Normalize(fold, entry.text) != text
  {
    if entries == [] then None
    else if Normalize(fold, entries[0].text) == text then Some(entries[0])
    else
      assert entries == [entries[0]] + entries[1..];
      FindEntry(fold, entries[1..], text)
  }

  lemma {:induction false} FindEntryIsFirst(fold: string -> string, entries: seq<Entry>, text: string) returns (i: nat)
    requires FindEntry(fold, entries, text).Some?
    ensures i < |entries| && FindEntry(fold, entries, text) == Some(entries[i])
    ensures forall j | 0 <= j < i :: Normalize(fold, entries[j].text) != text
  {
    hide Normalize;
    i := 0;
    if Normalize(fold, entries[0].text) != text {
      var rest := FindEntryIsFirst(fold, entries[1..], text);
      i := rest + 1;
      forall j | 0 <= j < i ensures Normalize(fold, entries[j].text) != text {
        assert j > 0 ==> entries[j] == entries[1..][j - 1];
      }
    }
  }

  function DefinitionOf(fold: string -> string, dictionary: seq<Definition>, a: Attribute): Option<Definition> {
    if Blank(a.name) then None else FindDefinition(fold, dictionary, Normalize(fold, Trim(a.name)))
  }

  // --- Matching, value by value and attribute by attribute ---

  datatype Fate = Skipped | Kept(value: ResolvedValue, shown: string) | Lost(text: string)

  function FateOf(fold: string -> string, definition: Definition, tables: Tables, raw: string): Fate {
    var value := Trim(raw);
    if value == "" then Skipped
    else if !definition.IsDictionary() then Kept(FreeText(value), value)
    else
      var found := if definition.id in tables
                   then FindEntry(fold, tables[definition.id], Normalize(fold, value)) else None;
      if found.Some? then Kept(DictionaryValue(found.value.id), found.value.text) else Lost(value)
  }

  function Fates(fold: string -> string, definition: Definition, tables: Tables, raws: seq<string>): seq<Fate> {
    seq(|raws|, i requires 0 <= i < |raws| => FateOf(fold, definition, tables, raws[i]))
  }

  function KeptValues(fates: seq<Fate>): seq<ResolvedValue> {
    if fates == [] then []
    else KeptValues(fates[..|fates| - 1])
         + (if fates[|fates| - 1].Kept? then [fates[|fates| - 1].value] else [])
  }

  function ShownValues(fates: seq<Fate>): seq<string> {
    if fates == [] then []
    else ShownValues(fates[..|fates| - 1])
         + (if fates[|fates| - 1].Kept? then [fates[|fates| - 1].shown] else [])
  }

  function LostDrops(name: string, fates: seq<Fate>): seq<Drop> {
    if fates == [] then []
    else LostDrops(name, fates[..|fates| - 1])
         + (var last := fates[|fates| - 1]; if last.Lost? then [Drop(name, Some(last.text), UnknownValue)] else [])
  }

  function MatchOne(fold: string -> string, dictionary: seq<Definition>, tables: Tables, a: Attribute): Outcome {
    var name := Trim(a.name);
    if name == "" then Outcome([], [], [Drop("", None, EmptyName)])
    else
      var found := DefinitionOf(fold, dictionary, a);
      if found.None? then Outcome([], [], [Drop(name, None, UnknownName)])
      else
        var fates := Fates(fold, found.value, tables, a.values);
        var lost := LostDrops(name, fates);
        if KeptValues(fates) != [] then
          Outcome([Resolved(found.value.id, KeptValues(fates))],
                  [Matched(found.value.id, found.value.name, ShownValues(fates))], lost)
        else Outcome([], [], lost + (if found.value.IsDictionary() then [] else [Drop(name, None, NothingToWrite)]))
  }

  function MatchAll(fold: string -> string, dictionary: seq<Definition>, tables: Tables, proposal: seq<Attribute>)
    : Outcome
  {
    if proposal == [] then NOTHING
    else MatchAll(fold, dictionary, tables, proposal[..|proposal| - 1])
         .Then(MatchOne(fold, dictionary, tables, proposal[|proposal| - 1]))
  }

  lemma MatchStep(fold: string -> string, dictionary: seq<Definition>, tables: Tables, proposal: seq<Attribute>, i: nat)
    requires i < |proposal|
    ensures MatchAll(fold, dictionary, tables, proposal[..i + 1])
         == MatchAll(fold, dictionary, tables, proposal[..i]).Then(MatchOne(fold, dictionary, tables, proposal[i]))
  {
    assert proposal[..i + 1][..i] == proposal[..i];
  }

  /** The inner loop: one attribute's values against one definition. */
  method MatchValues(fold: string -> string, name: string, definition: Definition, tables: Tables, raws: seq<string>)
    returns (kept: seq<ResolvedValue>, shown: seq<string>, dropped: seq<Drop>)
    ensures var fates := Fates(fold, definition, tables, raws);
            kept == KeptValues(fates) && shown == ShownValues(fates) && dropped == LostDrops(name, fates)
  {
    ghost var fates := Fates(fold, definition, tables, raws);
    kept, shown, dropped := [], [], [];
    for j := 0 to |raws|
      invariant kept == KeptValues(fates[..j]) && shown == ShownValues(fates[..j])
      invariant dropped == LostDrops(name, fates[..j])
    {
      assert fates[..j + 1][..j] == fates[..j];
      var value := Trim(raws[j]);
      if value == "" {
        continue;
      }
      if definition.IsDictionary() {
        var candidate := None;
        if definition.id in tables {
          candidate := FindEntry(fold, tables[definition.id], Normalize(fold, value));
        }
        if candidate.Some? {
          kept := kept + [DictionaryValue(candidate.value.id)];
          shown := shown + [candidate.value.text];
        } else {
          dropped := dropped + [Drop(name, Some(value), UnknownValue)];
        }
      } else {
        kept := kept + [FreeText(value)];
        shown := shown + [value];
      }
    }
    assert fates[..|raws|] == fates;
  }

  /** The matcher as it runs: the outer loop over the proposal's attributes. */
  method MatchAttributes(fold: string -> string, proposal: seq<Attribute>, dictionary: seq<Definition>, tables: Tables)
    returns (out: Outcome)
    ensures out == MatchAll(fold, dictionary, tables, proposal)
  {
    hide Trim, Normalize, Fates, KeptValues, ShownValues, LostDrops, FindDefinition;
    assert MatchAll(fold, dictionary, tables, proposal[..0]) == NOTHING;
    hide MatchAll;
    var resolved, matched, dropped := [], [], [];
    for i := 0 to |proposal|
      invariant Outcome(resolved, matched, dropped) == MatchAll(fold, dictionary, tables, proposal[..i])
    {
      MatchStep(fold, dictionary, tables, proposal, i);
      var attribute := proposal[i];
      var name := Trim(attribute.name);
      if name == "" {
        dropped := dropped + [Drop("", None, EmptyName)];
        continue;
      }
      var found := FindDefinition(fold, dictionary, Normalize(fold, name));
      if found.None? {
        dropped := dropped + [Drop(name, None, UnknownName)];
        continue;
      }
      var definition := found.value;
      var kept, shown, lost := MatchValues(fold, name, definition, tables, attribute.values);
      dropped := dropped + lost;
      if kept == [] {
        if !definition.IsDictionary() {
          dropped := dropped + [Drop(name, None, NothingToWrite)];
        }
        continue;
      }
      resolved := resolved + [Resolved(definition.id, kept)];
      matched := matched + [Matched(definition.id, definition.name, shown)];
    }
    assert proposal[..|proposal|] == proposal;
    out := Outcome(resolved, matched, dropped);
  }

  // --- Prefetching ---

  /** The ids a proposal makes the push read value lists for, each once, in order of first use. */
  function ReferencedIds(fold: string -> string, proposal: seq<Attribute>, dictionary: seq<Definition>): (ids: seq<nat>)
    ensures forall i, j | 0 <= i < j < |ids| :: ids[i] != ids[j]
  {
    if proposal == [] then []
    else
      var ids := ReferencedIds(fold, proposal[..|proposal| - 1], dictionary);
      var name := Normalize(fold, Trim(proposal[|proposal| - 1].name));
      var found := if name == "" then None else FindDefinition(fold, dictionary, name);
      if found.Some? && found.value.IsDictionary() && found.value.id !in ids then ids + [found.value.id] else ids
  }

  method CollectReferencedIds(fold: string -> string, proposal: seq<Attribute>, dictionary: seq<Definition>)
    returns (ids: seq<nat>)
    ensures ids == ReferencedIds(fold, proposal, dictionary)
  {
    ids := [];
    for i := 0 to |proposal|
      invariant ids == ReferencedIds(fold, proposal[..i], dictionary)
    {
      assert proposal[..i + 1][..i] == proposal[..i];
      var name := Normalize(fold, Trim(proposal[i].name));
      if name == "" {
        continue;
      }
      var found := FindDefinition(fold, dictionary, name);
      if found.Some? {
        if found.value.IsDictionary() && found.value.id !in ids {
          ids := ids + [found.value.id];
        }
      }
    }
    assert proposal[..|proposal|] == proposal;
  }

  /** The attribute's name matches a dictionary-typed definition with this id. */
  ghost predicate Consults(fold: string -> string, dictionary: seq<Definition>, a: Attribute, id: nat) {
    var found := DefinitionOf(fold, dictionary, a);
    found.Some? && found.value.IsDictionary() && found.value.id == id
  }

  lemma LookupsAgree(fold: string -> string, dictionary: seq<Definition>, a: Attribute)
    requires IsFold(fold)
    ensures var name := Normalize(fold, Trim(a.name));
            DefinitionOf(fold, dictionary, a) == if name == "" then None else FindDefinition(fold, dictionary, name)
  {
    EmptyNamesAgree(fold, a.name);
  }

  /** Exactly the ids some attribute consults are prefetched. */
  lemma {:induction false} ReferencedExactly(fold: string -> string, proposal: seq<Attribute>,
                                             dictionary: seq<Definition>, id: nat)
    requires IsFold(fold)
    ensures id in ReferencedIds(fold, proposal, dictionary) <==>
              exists a | a in proposal :: Consults(fold, dictionary, a, id)
  {
    if proposal != [] {
      var init, last := proposal[..|proposal| - 1], proposal[|proposal| - 1];
      assert proposal == init + [last];
      ReferencedExactly(fold, init, dictionary, id);
      LookupsAgree(fold, dictionary, last);
      hide Normalize, FindDefinition, DefinitionOf;
      assert id in ReferencedIds(fold, proposal, dictionary) <==>
             id in ReferencedIds(fold, init, dictionary) || Consults(fold, dictionary, last, id);
      if exists a | a in proposal :: Consults(fold, dictionary, a, id) {
        var a :| a in proposal && Consults(fold, dictionary, a, id);
        assert a in init || a == last;
      }
    }
  }

  /** Two families of value lists that agree on the referenced ids match alike. */
  lemma {:induction false} OnlyReferencedMatter(fold: string -> string, proposal: seq<Attribute>,
                                                dictionary: seq<Definition>, all: seq<Attribute>, t: Tables, u: Tables)
    requires IsFold(fold) && forall a | a in proposal :: a in all
    requires forall id | id in ReferencedIds(fold, all, dictionary) ::
               (id in t <==> id in u) && (id in t ==> t[id] == u[id])
    ensures MatchAll(fold, dictionary, t, proposal) == MatchAll(fold, dictionary, u, proposal)
  {
    if proposal != [] {
      var init, last := proposal[..|proposal| - 1], proposal[|proposal| - 1];
      OnlyReferencedMatter(fold, init, dictionary, all, t, u);
      var found := DefinitionOf(fold, dictionary, last);
      if found.Some? {
        if found.value.IsDictionary() {
          assert last in all && Consults(fold, dictionary, last, found.value.id);
          ReferencedExactly(fold, all, dictionary, found.value.id);
        }
        assert Fates(fold, found.value, t, last.values) == Fates(fold, found.value, u, last.values);
      }
    }
  }

  /** Prefetch refinement: when the referenced value lists can be read, matching with only them
      gives the outcome of matching with every dictionary's list at hand, whether or not the
      others can be read. */
  lemma PrefetchRefines(fold: string -> string, proposal: seq<Attribute>, dictionary: seq<Definition>,
                        read: nat -> Option<seq<Entry>>, full: Tables)
    requires IsFold(fold)
    requires forall i | 0 <= i < |dictionary| && dictionary[i].IsDictionary() :: dictionary[i].id in full
    requires forall id | id in full && read(id).Some? :: full[id] == read(id).value
    requires forall id | id in ReferencedIds(fold, proposal, dictionary) :: read(id).Some?
    ensures var fetched := map id | id in ReferencedIds(fold, proposal, dictionary) :: read(id).value;
            MatchAll(fold, dictionary, fetched, proposal) == MatchAll(fold, dictionary, full, proposal)
  {
    var fetched := map id | id in ReferencedIds(fold, proposal, dictionary) :: read(id).value;
    forall id | id in ReferencedIds(fold, proposal, dictionary) ensures id in full && fetched[id] == full[id] {
      ReferencedExactly(fold, proposal, dictionary, id);
      var a :| a in proposal && Consults(fold, dictionary, a, id);
      assert DefinitionOf(fold, dictionary, a).value in dictionary;
    }
    OnlyReferencedMatter(fold, proposal, dictionary, proposal, fetched, full);
  }

  // --- Independence ---

  lemma ThenAssociates(a: Outcome, b: Outcome, c: Outcome)
    ensures a.Then(b).Then(c) == a.Then(b.Then(c))
  {
  }

  /** Attributes do not influence one another: the outcome of a list is that of its parts. */
  lemma {:induction false} MatchSplits(fold: string -> string, dictionary: seq<Definition>, tables: Tables,
                                       p: seq<Attribute>, q: seq<Attribute>)
    ensures MatchAll(fold, dictionary, tables, p + q)
         == MatchAll(fold, dictionary, tables, p).Then(MatchAll(fold, dictionary, tables, q))
  {
    if q == [] {
      assert p + q == p;
    } else {
      var init, last := q[..|q| - 1], q[|q| - 1];
      assert (p + q)[..|p + q| - 1] == p + init && (p + q)[|p + q| - 1] == last;
      MatchSplits(fold, dictionary, tables, p, init);
      hide MatchOne;
      ThenAssociates(MatchAll(fold, dictionary, tables, p), MatchAll(fold, dictionary, tables, init),
                     MatchOne(fold, dictionary, tables, last));
    }
  }

  /** A named attribute unknown to the dictionary contributes one name-level drop and no write,
      wherever it stands. */
  lemma UnknownNameDropsOnce(fold: string -> string, dictionary: seq<Definition>, tables: Tables,
                             p: seq<Attribute>, a: Attribute, q: seq<Attribute>)
    requires !Blank(a.name) && DefinitionOf(fold, dictionary, a).None?
    ensures MatchAll(fold, dictionary, tables, p + [a] + q)
         == MatchAll(fold, dictionary, tables, p)
            .Then(Outcome([], [], [Drop(Trim(a.name), None, UnknownName)]))
            .Then(MatchAll(fold, dictionary, tables, q))
  {
    MatchSplits(fold, dictionary, tables, p + [a], q);
    MatchSplits(fold, dictionary, tables, p, [a]);
    assert [a][..0] == [];
  }

  /** An attribute leaves no trace at all exactly if its name matches a dictionary-typed
      definition and every value is blank: nothing is written and nothing is reported. */
  lemma SilentExactly(fold: string -> string, dictionary: seq<Definition>, tables: Tables, a: Attribute)
    ensures MatchOne(fold, dictionary, tables, a) == NOTHING <==>
              && DefinitionOf(fold, dictionary, a).Some? && DefinitionOf(fold, dictionary, a).value.IsDictionary()
              && forall value | value in a.values :: Blank(value)
  {
    var found := DefinitionOf(fold, dictionary, a);
    if found.Some? {
      var fates := Fates(fold, found.value, tables, a.values);
      FatesAddUp(Trim(a.name), fates);
      NonblankFates(fold, found.value, tables, a.values);
    }
  }

  // --- Conservation ---

  function Nonblank(values: seq<string>): nat {
    if values == [] then 0
    else Nonblank(values[..|values| - 1]) + (if Blank(values[|values| - 1]) then 0 else 1)
  }

  function NotSkipped(fates: seq<Fate>): nat {
    if fates == [] then 0
    else NotSkipped(fates[..|fates| - 1]) + (if fates[|fates| - 1].Skipped? then 0 else 1)
  }

  lemma {:induction false} FatesAddUp(name: string, fates: seq<Fate>)
    ensures |KeptValues(fates)| == |ShownValues(fates)|
    ensures |KeptValues(fates)| + |LostDrops(name, fates)| == NotSkipped(fates)
    ensures forall drop | drop in LostDrops(name, fates) :: drop.value.Some?
  {
    if fates != [] {
      FatesAddUp(name, fates[..|fates| - 1]);
    }
  }

  lemma {:induction false} NonblankFates(fold: string -> string, definition: Definition, tables: Tables,
                                         raws: seq<string>)
    ensures NotSkipped(Fates(fold, definition, tables, raws)) == Nonblank(raws)
    ensures Nonblank(raws) == 0 <==> forall raw | raw in raws :: Blank(raw)
  {
    if raws != [] {
      var init := raws[..|raws| - 1];
      assert raws == init + [raws[|raws| - 1]];
      assert Fates(fold, definition, tables, raws)[..|raws| - 1] == Fates(fold, definition, tables, init);
      NonblankFates(fold, definition, tables, init);
      if forall raw | raw in raws :: Blank(raw) {
        assert raws[|raws| - 1] in raws;
        assert forall raw | raw in init :: raw in raws;
      }
    }
  }

  /** The non-blank values under names the dictionary knows. */
  function Offered(fold: string -> string, dictionary: seq<Definition>, proposal: seq<Attribute>): nat {
    if proposal == [] then 0
    else
      var last := proposal[|proposal| - 1];
      Offered(fold, dictionary, proposal[..|proposal| - 1])
      + (if DefinitionOf(fold, dictionary, last).Some? then Nonblank(last.values) else 0)
  }

  /** The names that cannot be written at all: empty, unknown, or free-text without a value. */
  function Unwritable(fold: string -> string, dictionary: seq<Definition>, proposal: seq<Attribute>): nat {
    if proposal == [] then 0
    else
      var last := proposal[|proposal| - 1];
      var found := DefinitionOf(fold, dictionary, last);
      Unwritable(fold, dictionary, proposal[..|proposal| - 1])
      + (if found.None? || (!found.value.IsDictionary() && Nonblank(last.values) == 0) then 1 else 0)
  }

  function WrittenValues(resolved: seq<Resolved>): nat {
    if resolved == [] then 0
    else WrittenValues(resolved[..|resolved| - 1]) + |resolved[|resolved| - 1].values|
  }

  function ValueDrops(dropped: seq<Drop>): nat {
    if dropped == [] then 0
    else ValueDrops(dropped[..|dropped| - 1]) + (if dropped[|dropped| - 1].value.Some? then 1 else 0)
  }

  lemma {:induction false} ValueDropsAdd(p: seq<Drop>, q: seq<Drop>)
    ensures ValueDrops(p + q) == ValueDrops(p) + ValueDrops(q)
    ensures (forall drop | drop in q :: drop.value.Some?) ==> ValueDrops(q) == |q|
  {
    if q == [] {
      assert p + q == p;
    } else {
      assert (p + q)[..|p + q| - 1] == p + q[..|q| - 1];
      ValueDropsAdd(p, q[..|q| - 1]);
    }
  }

  /** The fates of a known attribute's values settle its counts. */
  lemma KnownAddsUp(fold: string -> string, definition: Definition, tables: Tables, a: Attribute, name: string)
    ensures var fates := Fates(fold, definition, tables, a.values); var lost := LostDrops(name, fates);
            && |KeptValues(fates)| + |lost| == Nonblank(a.values) && ValueDrops(lost) == |lost|
            && ValueDrops(lost + [Drop(name, None, NothingToWrite)]) == |lost|
            && (!definition.IsDictionary() ==> lost == [])
  {
    var fates := Fates(fold, definition, tables, a.values);
    FatesAddUp(name, fates);
    NonblankFates(fold, definition, tables, a.values);
    ValueDropsAdd([], LostDrops(name, fates));
    ValueDropsAdd(LostDrops(name, fates), [Drop(name, None, NothingToWrite)]);
    NothingLost(fold, definition, tables, a.values, name);
  }

  lemma MatchOneAddsUp(fold: string -> string, dictionary: seq<Definition>, tables: Tables, a: Attribute)
    ensures var out := MatchOne(fold, dictionary, tables, a); var found := DefinitionOf(fold, dictionary, a);
            && WrittenValues(out.resolved) + ValueDrops(out.dropped) == (if found.Some? then Nonblank(a.values) else 0)
            && |out.dropped| - ValueDrops(out.dropped)
               == (if found.None? || (!found.value.IsDictionary() && Nonblank(a.values) == 0) then 1 else 0)
            && |out.resolved| <= 1
  {
    var found := DefinitionOf(fold, dictionary, a);
    hide Fates, KeptValues, ShownValues, LostDrops, Nonblank, Trim, Normalize, FindDefinition;
    if found.Some? {
      KnownAddsUp(fold, found.value, tables, a, Trim(a.name));
      var kept := KeptValues(Fates(fold, found.value, tables, a.values));
      var one := Resolved(found.value.id, kept);
      assert [one][..0] == [];
      assert WrittenValues([one]) == |kept|;
      var lost := LostDrops(Trim(a.name), Fates(fold, found.value, tables, a.values));
      assert lost + [] == lost;
    }
  }

  lemma {:induction false} NothingLost(fold: string -> string, definition: Definition, tables: Tables,
                                        raws: seq<string>, name: string)
    ensures !definition.IsDictionary() ==> LostDrops(name, Fates(fold, definition, tables, raws)) == []
  {
    if raws != [] {
      assert Fates(fold, definition, tables, raws)[..|raws| - 1] == Fates(fold, definition, tables, raws[..|raws| - 1]);
      NothingLost(fold, definition, tables, raws[..|raws| - 1], name);
    }
  }

  /** Conservation: every non-blank value under a known name is either written or reported by
      its own drop, and the remaining drops are one for each name that cannot be written. */
  lemma {:induction false} NothingVanishes(fold: string -> string, dictionary: seq<Definition>, tables: Tables,
                                           proposal: seq<Attribute>)
    ensures var out := MatchAll(fold, dictionary, tables, proposal);
            && WrittenValues(out.resolved) + ValueDrops(out.dropped) == Offered(fold, dictionary, proposal)
            && |out.dropped| - ValueDrops(out.dropped) == Unwritable(fold, dictionary, proposal)
  {
    if proposal != [] {
      var init, last := proposal[..|proposal| - 1], proposal[|proposal| - 1];
      NothingVanishes(fold, dictionary, tables, init);
      MatchOneAddsUp(fold, dictionary, tables, last);
      var before, one := MatchAll(fold, dictionary, tables, init), MatchOne(fold, dictionary, tables, last);
      ValueDropsAdd(before.dropped, one.dropped);
      if one.resolved == [] {
        assert before.resolved + one.resolved == before.resolved;
      } else {
        assert (before.resolved + one.resolved)[..|before.resolved|] == before.resolved;
        assert one.resolved[..0] == [];
      }
    }
  }

  // --- Soundness ---

  /** A written value and its preview come from this proposal value: the free text itself, or
      the first entry of the definition's list with the same normal form. */
  ghost predicate FaithfulValue(fold: string -> string, definition: Definition, tables: Tables,
                                written: ResolvedValue, shown: string, raw: string) {
    && !Blank(raw)
    && match written
       case FreeText(text) => !definition.IsDictionary() && text == shown == Trim(raw)
       case DictionaryValue(id) =>
         && definition.IsDictionary() && definition.id in tables
         && Entry(id, shown) in tables[definition.id]
         && FindEntry(fold, tables[definition.id], Normalize(fold, Trim(raw))) == Some(Entry(id, shown))
         && Normalize(fold, shown) == Normalize(fold, Trim(raw))
  }

  ghost predicate Increasing(s: seq<nat>, bound: nat) {
    (forall i, j | 0 <= i < j < |s| :: s[i] < s[j]) && forall i | 0 <= i < |s| :: s[i] < bound
  }

  /** Value by value, the write and the preview correspond to distinct proposal values in order. */
  ghost predicate FaithfulAttribute(fold: string -> string, dictionary: seq<Definition>, tables: Tables,
                                    written: Resolved, shown: Matched, a: Attribute, from: seq<nat>) {
    && DefinitionOf(fold, dictionary, a).Some?
    && var definition := DefinitionOf(fold, dictionary, a).value;
    && written.attribute == shown.attribute == definition.id && shown.name == definition.name
    && Normalize(fold, definition.name) == Normalize(fold, Trim(a.name))
    && 0 < |written.values| == |shown.values| == |from| && Increasing(from, |a.values|)
    && forall k | 0 <= k < |from| ::
         FaithfulValue(fold, definition, tables, written.values[k], shown.values[k], a.values[from[k]])
  }

  lemma {:induction false} KeptFaithful(fold: string -> string, definition: Definition, tables: Tables,
                                        raws: seq<string>)
    returns (from: seq<nat>)
    ensures var fates := Fates(fold, definition, tables, raws);
            && |KeptValues(fates)| == |ShownValues(fates)| == |from| && Increasing(from, |raws|)
            && forall k | 0 <= k < |from| ::
                 FaithfulValue(fold, definition, tables, KeptValues(fates)[k], ShownValues(fates)[k], raws[from[k]])
  {
    from := [];
    if raws != [] {
      var n := |raws| - 1;
      var fates := Fates(fold, definition, tables, raws);
      assert fates[..n] == Fates(fold, definition, tables, raws[..n]);
      from := KeptFaithful(fold, definition, tables, raws[..n]);
      if fates[n].Kept? {
        from := from + [n];
      }
    }
  }

  lemma MatchOneFaithful(fold: string -> string, dictionary: seq<Definition>, tables: Tables, a: Attribute)
    returns (from: seq<nat>)
    ensures var out := MatchOne(fold, dictionary, tables, a);
            && |out.resolved| == |out.matched| <= 1
            && (|out.resolved| == 1 ==>
                  FaithfulAttribute(fold, dictionary, tables, out.resolved[0], out.matched[0], a, from))
  {
    var found := DefinitionOf(fold, dictionary, a);
    from := [];
    if found.Some? {
      from := KeptFaithful(fold, found.value, tables, a.values);
    }
  }

  /** Soundness and faithful preview: what is written and what is previewed correspond one to
      one, each to its own proposal attribute in order, and value by value. */
  lemma {:induction false} WritesAreFaithful(fold: string -> string, dictionary: seq<Definition>, tables: Tables,
                                             proposal: seq<Attribute>)
    returns (from: seq<nat>, values: seq<seq<nat>>)
    ensures var out := MatchAll(fold, dictionary, tables, proposal);
            && |out.resolved| == |out.matched| == |from| == |values| && Increasing(from, |proposal|)
            && forall i | 0 <= i < |from| ::
                 FaithfulAttribute(fold, dictionary, tables, out.resolved[i], out.matched[i], proposal[from[i]],
                                   values[i])
  {
    from, values := [], [];
    if proposal != [] {
      var n := |proposal| - 1;
      from, values := WritesAreFaithful(fold, dictionary, tables, proposal[..n]);
      var one := MatchOneFaithful(fold, dictionary, tables, proposal[n]);
      if MatchOne(fold, dictionary, tables, proposal[n]).resolved != [] {
        from, values := from + [n], values + [one];
      }
    }
  }

  /** A reported drop with a value is right: it names a proposal value, trimmed, that the list of
      the dictionary attribute it stands under does not hold. */
  ghost predicate TrulyLost(fold: string -> string, definition: Definition, tables: Tables, raws: seq<string>,
                            drop: Drop)
  {
    && drop.value.Some? && drop.reason == UnknownValue && definition.dictionaryId != 0
    && exists raw | raw in raws ::
         && Trim(raw) == drop.value.value != ""
         && (definition.id in tables ==> forall entry | entry in tables[definition.id] ::
               Normalize(fold, entry.text) != Normalize(fold, Trim(raw)))
  }

  lemma {:induction false} LostTruly(fold: string -> string, name: string, definition: Definition, tables: Tables,
                                     raws: seq<string>)
    ensures forall drop | drop in LostDrops(name, Fates(fold, definition, tables, raws)) ::
              drop.name == name && TrulyLost(fold, definition, tables, raws, drop)
  {
    if raws != [] {
      var n := |raws| - 1;
      var fates := Fates(fold, definition, tables, raws);
      assert fates[..n] == Fates(fold, definition, tables, raws[..n]);
      LostTruly(fold, name, definition, tables, raws[..n]);
      forall drop | drop in LostDrops(name, fates)
        ensures drop.name == name && TrulyLost(fold, definition, tables, raws, drop)
      {
        if drop in LostDrops(name, fates[..n]) {
          StillLost(fold, definition, tables, raws[..n], raws, drop);
        } else {
          assert fates[n].Lost? && drop.value == Some(Trim(raws[n])) && raws[n] in raws;
        }
      }
    }
  }

  lemma StillLost(fold: string -> string, definition: Definition, tables: Tables, some: seq<string>, all: seq<string>,
                  drop: Drop)
    requires TrulyLost(fold, definition, tables, some, drop) && forall raw | raw in some :: raw in all
    ensures TrulyLost(fold, definition, tables, all, drop)
  {
  }

  /** What one attribute is dropped for: an empty name, an unknown one, free text without a value,
      or values its dictionary does not hold. Nothing is dropped for any other reason. */
  lemma DropsAreRight(fold: string -> string, dictionary: seq<Definition>, tables: Tables, a: Attribute)
    ensures var out := MatchOne(fold, dictionary, tables, a); var name := Trim(a.name);
            if name == "" then out == Outcome([], [], [Drop("", None, EmptyName)])
            else if forall d | d in dictionary :: Normalize(fold, d.name) != Normalize(fold, name) then
              out == Outcome([], [], [Drop(name, None, UnknownName)])
            else
              && DefinitionOf(fold, dictionary, a).Some?
              && var definition := DefinitionOf(fold, dictionary, a).value;
              if definition.dictionaryId == 0 && (forall value | value in a.values :: Trim(value) == "") then
                out == Outcome([], [], [Drop(name, None, NothingToWrite)])
              else
                forall drop | drop in out.dropped ::
                  drop.name == name && TrulyLost(fold, definition, tables, a.values, drop)
  {
    var found := DefinitionOf(fold, dictionary, a);
    if found.Some? {
      LostTruly(fold, Trim(a.name), found.value, tables, a.values);
      NonblankFates(fold, found.value, tables, a.values);
      FatesAddUp(Trim(a.name), Fates(fold, found.value, tables, a.values));
      NothingLost(fold, found.value, tables, a.values, Trim(a.name));
    }
    hide Normalize, Trim, TrulyLost, Fates, LostDrops, KeptValues, ShownValues, NotSkipped, Nonblank;
  }

  // --- Pushing ---

  const TITLE_MAX: nat := 200
  const DESCRIPTION_MAX: nat := 1800

  /** The position of the last blank character, if there is one. */
  function LastSpace(s: string): (r: Option<nat>)
    ensures r.Some? ==> r.value < |s| && s[r.value] == ' ' && forall j | r.value < j < |s| :: s[j] != ' '
    ensures r.None? ==> ' ' !in s
  {
    if s == [] then None
    else if s[|s| - 1] == ' ' then Some(|s| - 1)
    else
      assert s == s[..|s| - 1] + [s[|s| - 1]];
      LastSpace(s[..|s| - 1])
  }

  function Truncate(s: string, max: nat): string {
    var t := Trim(s);
    if |t| <= max then t
    else
      var cut := t[..max];
      TrimEnd(if LastSpace(cut).Some? then cut[..LastSpace(cut).value] else cut)
  }

  /** Truncation yields a prefix of the trimmed text within the limit, ending in no white space
      and cut between words unless the allowed part holds no blank at all. */
  lemma TruncateCutsBetweenWords(s: string, max: nat)
    ensures var t := Trim(s); var r := Truncate(s, max);
            && |r| <= max && |r| <= |t| && r == t[..|r|]
            && (r != [] ==> !IsSpace(r[|r| - 1]))
            && (|t| <= max ==> r == t)
            && (|t| > max && ' ' in t[..max] ==> IsSpace(t[|r|]))
  {
    var t := Trim(s);
    TrimEndTrimmed(TrimStart(s));
    if |t| > max {
      var cut := t[..max];
      var kept := if LastSpace(cut).Some? then cut[..LastSpace(cut).value] else cut;
      TrimEndTrimmed(kept);
      TrimEndStops(kept);
      assert |Truncate(s, max)| < |kept| ==> kept[|Truncate(s, max)|] == t[|Truncate(s, max)|];
    }
  }

  /** The cut is as late as it can be: up to any later blank within the limit there is white space
      only, and without a blank nothing but white space at the end is cut off the allowed part. */
  lemma TruncateCutsLate(s: string, max: nat)
    requires |Trim(s)| > max
    ensures var t := Trim(s); var r := Truncate(s, max);
            && |r| <= max
            && (' ' in t[..max] ==> forall j | |r| < j < max && t[j] == ' ' :: AllSpace(t[|r|..j]))
            && (' ' !in t[..max] ==> r == TrimEnd(t[..max]))
  {
    hide Trim, TrimEnd, LastSpace;
    var t := Trim(s);
    var cut := t[..max];
    var kept := if LastSpace(cut).Some? then cut[..LastSpace(cut).value] else cut;
    var r := Truncate(s, max);
    TrimEndTrimmed(kept);
    if ' ' in cut {
      var b := TrimEndCuts(kept);
      assert b == t[|r|..|kept|];
      forall j | |r| < j < max && t[j] == ' ' ensures AllSpace(t[|r|..j]) {
        assert cut[j] == ' ' && j <= |kept|;
        assert t[|r|..j] == b[..j - |r|];
      }
    }
  }

  lemma {:induction false} TrimEndStops(s: string)
    ensures |TrimEnd(s)| <= |s| && (|TrimEnd(s)| < |s| ==> IsSpace(s[|TrimEnd(s)|]))
  {
    if s != [] && IsSpace(s[|s| - 1]) {
      TrimEndStops(s[..|s| - 1]);
    }
  }

  datatype Target = Target(title: string, description: string, attributes: seq<Attribute>)

  /** The live listing; a product may lack its category or type. */
  datatype Product = Product(offer: string, name: Option<string>, description: Option<string>,
                             category: Option<nat>, kind: Option<nat>)

  datatype Update = Update(offer: string, name: Option<string>, description: Option<string>, attributes: seq<Resolved>)
  datatype Receipt = Receipt(accepted: bool, importId: Option<string>)

  /** The shop's answers in the course of one push, each possibly a failure: the product, the
      attributes and the value lists of its category, and the answer to an update. */
  datatype Shop = Shop(product: Option<Product>, dictionary: Option<seq<Definition>>,
                       values: nat -> Option<seq<Entry>>, update: Update -> Option<Receipt>)

  datatype Change = Change(before: string, after: string)
  datatype Preview = Preview(title: Change, description: Change, attributes: seq<Matched>, dropped: seq<Drop>)

  datatype Failure = NoProduct | NoCategory | NoType | NoAttributes | NoValues(id: nat) | NotUpdated

  datatype Pushed = Failed(failure: Failure) | Shown(preview: Preview) | Written(preview: Preview, receipt: Receipt)

  function NonEmpty(s: string): Option<string> {
    if s == "" then None else Some(s)
  }

  /** The first of the ids, from `i` on, whose value list cannot be read. */
  function FirstUnread(values: nat -> Option<seq<Entry>>, ids: seq<nat>, i: nat): (r: nat)
    requires i <= |ids|
    ensures i <= r <= |ids| && (forall j | i <= j < r :: values(ids[j]).Some?)
    ensures r < |ids| ==> values(ids[r]).None?
    decreases |ids| - i
  {
    if i == |ids| || values(ids[i]).None? then i else FirstUnread(values, ids, i + 1)
  }

  /** What the match makes of a product: the preview and the update it announces. */
  function Announce(target: Target, product: Product, out: Outcome): (Preview, Update) {
    var title := Truncate(Trim(target.title), TITLE_MAX);
    var description := Truncate(Trim(target.description), DESCRIPTION_MAX);
    (Preview(Change(product.name.GetOr(""), title), Change(product.description.GetOr(""), description),
             out.matched, out.dropped),
     Update(product.offer, NonEmpty(title), NonEmpty(description), out.resolved))
  }

  /** What a push comes to and which update, if any, it hands to the shop, when every
      dictionary's values are at hand in `full`. */
  function PushResult(fold: string -> string, target: Target, shop: Shop, confirm: bool, full: Tables)
    : (Pushed, Option<Update>)
  {
    if shop.product.None? then (Failed(NoProduct), None)
    else if shop.product.value.category.None? then (Failed(NoCategory), None)
    else if shop.product.value.kind.None? then (Failed(NoType), None)
    else if shop.dictionary.None? then (Failed(NoAttributes), None)
    else
      var ids := ReferencedIds(fold, target.attributes, shop.dictionary.value);
      var unread := FirstUnread(shop.values, ids, 0);
      if unread < |ids| then (Failed(NoValues(ids[unread])), None)
      else
        var out := MatchAll(fold, shop.dictionary.value, full, target.attributes);
        var (preview, update) := Announce(target, shop.product.value, out);
        if !confirm then (Shown(preview), None)
        else if shop.update(update).None? then (Failed(NotUpdated), Some(update))
        else (Written(preview, shop.update(update).value), Some(update))
  }

  /** What is sent and what is shown, value by value. The update carries the product's offer, the
      title and the description, each cut to its limit and left out exactly when nothing remains,
      and the matched attributes; the preview shows the product's own texts before, the very
      texts that are sent after, and what was matched and dropped. */
  lemma SentAndShown(fold: string -> string, target: Target, shop: Shop, confirm: bool, full: Tables)
    ensures var (pushed, sent) := PushResult(fold, target, shop, confirm, full);
            sent.Some? ==>
              && shop.product.Some? && shop.dictionary.Some?
              && var out := MatchAll(fold, shop.dictionary.value, full, target.attributes);
              && var title, description := Truncate(target.title, 200), Truncate(target.description, 1800);
              && sent.value.offer == shop.product.value.offer
              && sent.value.name == (if title == "" then None else Some(title))
              && sent.value.description == (if description == "" then None else Some(description))
              && sent.value.attributes == out.resolved
    ensures var (pushed, sent) := PushResult(fold, target, shop, confirm, full);
            pushed.Shown? || pushed.Written? ==>
              && shop.product.Some? && shop.dictionary.Some?
              && var out := MatchAll(fold, shop.dictionary.value, full, target.attributes);
              && var product, preview := shop.product.value, pushed.preview;
              && preview.title.before == (if product.name.Some? then product.name.value else "")
              && preview.title.after == Truncate(target.title, 200)
              && preview.description.before == (if product.description.Some? then product.description.value else "")
              && preview.description.after == Truncate(target.description, 1800)
              && preview.attributes == out.matched && preview.dropped == out.dropped
              && (pushed.Written? <==> sent.Some?)
              && (pushed.Written? ==> shop.update(sent.value) == Some(pushed.receipt))
  {
    TrimIdempotent(target.title);
    TrimIdempotent(target.description);
    hide MatchAll, ReferencedIds, Trim, TrimEnd, LastSpace;
  }

  /** A push fails for the first of these reasons that applies: no product, no category, no type,
      no attributes, the first consulted value list that cannot be read, a failing update. */
  lemma FailsExactly(fold: string -> string, target: Target, shop: Shop, confirm: bool, full: Tables)
    ensures var pushed := PushResult(fold, target, shop, confirm, full).0;
            && (pushed == Failed(NoProduct) <==> shop.product.None?)
            && (pushed == Failed(NoCategory) <==> shop.product.Some? && shop.product.value.category.None?)
            && (pushed == Failed(NoType) <==>
                  shop.product.Some? && shop.product.value.category.Some? && shop.product.value.kind.None?)
            && (pushed == Failed(NoAttributes) <==>
                  && shop.product.Some? && shop.product.value.category.Some? && shop.product.value.kind.Some?
                  && shop.dictionary.None?)
            && (pushed == Failed(NotUpdated) ==> confirm)
            && (forall id :: pushed == Failed(NoValues(id)) ==>
                  && shop.dictionary.Some? && shop.values(id).None?
                  && id in ReferencedIds(fold, target.attributes, shop.dictionary.value))
  {
    hide MatchAll, ReferencedIds, Announce;
  }

  /** Every value list some attribute of the target consults can be read. */
  ghost predicate ConsultedReadable(fold: string -> string, target: Target, shop: Shop)
    requires shop.dictionary.Some?
  {
    forall a, id | a in target.attributes && Consults(fold, shop.dictionary.value, a, id) :: shop.values(id).Some?
  }

  /** An update leaves the node if and only if the push is confirmed, the product with its
      category and type and the attributes can be read, and so can every value list some
      attribute consults. Unreadable lists nobody consults do not matter. */
  lemma SentExactly(fold: string -> string, target: Target, shop: Shop, confirm: bool, full: Tables)
    requires IsFold(fold)
    ensures PushResult(fold, target, shop, confirm, full).1.Some? <==>
              && confirm && shop.product.Some? && shop.product.value.category.Some? && shop.product.value.kind.Some?
              && shop.dictionary.Some? && ConsultedReadable(fold, target, shop)
  {
    hide ReferencedIds, MatchAll, Normalize, Truncate, Consults, FirstUnread, ConsultedReadable, IsFold;
    if shop.dictionary.Some? {
      AllReadExactly(fold, target, shop);
    }
  }

  lemma AllReadExactly(fold: string -> string, target: Target, shop: Shop)
    requires IsFold(fold) && shop.dictionary.Some?
    ensures var ids := ReferencedIds(fold, target.attributes, shop.dictionary.value);
            FirstUnread(shop.values, ids, 0) == |ids| <==> ConsultedReadable(fold, target, shop)
  {
    var ids := ReferencedIds(fold, target.attributes, shop.dictionary.value);
    var unread := FirstUnread(shop.values, ids, 0);
    hide ReferencedIds, Normalize, Consults, FirstUnread, IsFold;
    if unread < |ids| {
      ReferencedExactly(fold, target.attributes, shop.dictionary.value, ids[unread]);
    } else {
      forall a, id | a in target.attributes && Consults(fold, shop.dictionary.value, a, id)
        ensures shop.values(id).Some?
      {
        ReferencedExactly(fold, target.attributes, shop.dictionary.value, id);
        var j :| 0 <= j < |ids| && ids[j] == id;
      }
    }
  }

  /** Read the value lists of the ids in order, until one cannot be read. */
  method FetchValues(values: nat -> Option<seq<Entry>>, ids: seq<nat>) returns (read: nat, fetched: Tables)
    ensures read == FirstUnread(values, ids, 0)
    ensures read == |ids| ==> (forall id | id in ids :: values(id).Some?)
                              && fetched == map id | id in ids && values(id).Some? :: values(id).value
  {
    fetched := map[];
    read := 0;
    while read < |ids|
      invariant read <= |ids| && (forall j | 0 <= j < read :: values(ids[j]).Some?)
      invariant FirstUnread(values, ids, 0) == FirstUnread(values, ids, read)
      invariant fetched == map id | id in ids[..read] && values(id).Some? :: values(id).value
    {
      var list := values(ids[read]);
      if list.None? {
        return;
      }
      fetched := fetched[ids[read] := list.value];
      read := read + 1;
    }
    assert ids[..|ids|] == ids;
  }

  /** One push: the value lists are read for the referenced ids only, the first failing read ends
      it, then everything is matched. `sent` is the update handed to the shop, if any. */
  method PushOne(fold: string -> string, target: Target, shop: Shop, confirm: bool, ghost full: Tables)
    returns (pushed: Pushed, sent: Option<Update>)
    requires IsFold(fold)
    requires shop.dictionary.Some? ==>
               forall i | 0 <= i < |shop.dictionary.value| && shop.dictionary.value[i].IsDictionary() ::
                 shop.dictionary.value[i].id in full
    requires forall id | id in full && shop.values(id).Some? :: full[id] == shop.values(id).value
    ensures (pushed, sent) == PushResult(fold, target, shop, confirm, full)
  {
    sent := None;
    if shop.product.None? {
      return Failed(NoProduct), None;
    }
    var product := shop.product.value;
    if product.category.None? {
      return Failed(NoCategory), None;
    }
    if product.kind.None? {
      return Failed(NoType), None;
    }
    if shop.dictionary.None? {
      return Failed(NoAttributes), None;
    }
    hide MatchAll, ReferencedIds, Normalize, Truncate, FirstUnread, IsFold;
    var ids := CollectReferencedIds(fold, target.attributes, shop.dictionary.value);
    var read, fetched := FetchValues(shop.values, ids);
    if read < |ids| {
      return Failed(NoValues(ids[read])), None;
    }
    PrefetchRefines(fold, target.attributes, shop.dictionary.value, shop.values, full);
    assert fetched == map id | id in ids :: shop.values(id).value;
    var out := MatchAttributes(fold, target.attributes, shop.dictionary.value, fetched);
    var (preview, update) := Announce(target, product, out);
    if !confirm {
      return Shown(preview), None;
    }
    sent := Some(update);
    var receipt := shop.update(update);
    pushed := if receipt.None? then Failed(NotUpdated) else Written(preview, receipt.value);
  }
}
