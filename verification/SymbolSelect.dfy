// Symbol selection over a catalogue that may be refreshed while candidates are
// being tried (services/mt5_gateway/runtime.py).
module SymbolSelect {
  import opened SymbolResolve
  import opened Text
  import opened Wrappers

  // The terminal's answer to one symbol_select; a refusal says whether it was
  // the "Terminal: Call failed" kind that is worth one retry.
  datatype Reply = Granted | Refused(callFailed: bool)

  // ---------------------------------------------------------------------
  // The catalogue index

  function AddEntry(idx: seq<Entry>, listed: string): seq<Entry> {
    var name := Strip(listed);
    if name == "" || Get(idx, Upper(name)).Some? then idx else idx + [Entry(Upper(name), name)]
  }

  // The index of a listing: each non-blank trimmed name under its upper case,
  // the first spelling of a key winning.
  function IndexOf(listed: seq<string>): seq<Entry> {
    if listed == [] then [] else AddEntry(IndexOf(listed[..|listed| - 1]), listed[|listed| - 1])
  }

  lemma {:induction false} GetAppend(idx: seq<Entry>, e: Entry, key: string)
    ensures Get(idx + [e], key) == if Get(idx, key).Some? then Get(idx, key) else if e.key == key then Some(e.name) else None
  {
    if idx == [] {
      assert idx + [e] == [e];
    } else {
      assert (idx + [e])[1..] == idx[1..] + [e];
      GetAppend(idx[1..], e, key);
    }
  }

  lemma {:induction false} GetNoneMeans(idx: seq<Entry>, key: string)
    ensures Get(idx, key).None? <==> forall i :: 0 <= i < |idx| ==> idx[i].key != key
  {
    if idx != [] {
      GetNoneMeans(idx[1..], key);
      assert forall i :: 0 < i < |idx| ==> idx[i] == idx[1..][i - 1];
      assert idx[0].key != key && (forall i :: 0 <= i < |idx[1..]| ==> idx[1..][i].key != key) ==>
          forall i :: 0 <= i < |idx| ==> idx[i].key != key;
      assert (forall i :: 0 <= i < |idx| ==> idx[i].key != key) ==>
          forall i :: 0 <= i < |idx[1..]| ==> idx[1..][i] == idx[i + 1];
    }
  }

  lemma AddEntryKeepsCatalogue(idx: seq<Entry>, listed: string)
    requires Catalogue(idx)
    ensures Catalogue(AddEntry(idx, listed))
    ensures forall n :: Lists(AddEntry(idx, listed), n) ==> Lists(idx, n) || n == Strip(listed)
    ensures Strip(listed) != "" ==> Get(AddEntry(idx, listed), Upper(Strip(listed))).Some?
  {
    hide Get, Strip, Upper;
    StripTrims(listed);
    var name := Strip(listed);
    GetNoneMeans(idx, Upper(name));
    GetAppend(idx, Entry(Upper(name), name), Upper(name));
    forall n | Lists(AddEntry(idx, listed), n)
      ensures Lists(idx, n) || n == name
    {
      var i :| 0 <= i < |AddEntry(idx, listed)| && AddEntry(idx, listed)[i].name == n;
      assert i < |idx| ==> idx[i].name == n;
    }
  }

  predicate Listed(listed: seq<string>, name: string) {
    exists i | 0 <= i < |listed| :: Strip(listed[i]) == name
  }

  // Every index built from a listing is a catalogue of listed names, and finds
  // a spelling for every listed name.
  lemma {:induction false} IndexIsCatalogue(listed: seq<string>)
    ensures Catalogue(IndexOf(listed))
    ensures forall n :: Lists(IndexOf(listed), n) ==> n != "" && Listed(listed, n)
    ensures forall i :: 0 <= i < |listed| && Strip(listed[i]) != "" ==> Get(IndexOf(listed), Upper(Strip(listed[i]))).Some?
  {
    hide Get, Strip, Upper;
    if listed != [] {
      var front, last := listed[..|listed| - 1], listed[|listed| - 1];
      IndexIsCatalogue(front);
      AddEntryKeepsCatalogue(IndexOf(front), last);
      assert Strip(listed[|listed| - 1]) == Strip(last);
      forall n | Lists(IndexOf(listed), n)
        ensures n != "" && Listed(listed, n)
      {
        if Lists(IndexOf(front), n) {
          var i :| 0 <= i < |front| && Strip(front[i]) == n;
          assert Strip(listed[i]) == n;
        }
      }
      forall i | 0 <= i < |listed| && Strip(listed[i]) != ""
        ensures Get(IndexOf(listed), Upper(Strip(listed[i]))).Some?
      {
        if i < |front| {
          assert front[i] == listed[i];
          GetAppend(IndexOf(front), Entry(Upper(Strip(last)), Strip(last)), Upper(Strip(listed[i])));
        }
      }
    }
  }

  // Of several spellings of one key, the index keeps the first listed.
  lemma {:induction false} FirstSpellingWins(listed: seq<string>, i: nat)
    requires i < |listed| && Strip(listed[i]) != ""
    requires forall j :: 0 <= j < i ==> Upper(Strip(listed[j])) != Upper(Strip(listed[i]))
    ensures Get(IndexOf(listed), Upper(Strip(listed[i]))) == Some(Strip(listed[i]))
  {
    hide Get, Strip, Upper;
    var front, last := listed[..|listed| - 1], listed[|listed| - 1];
    var key := Upper(Strip(listed[i]));
    GetAppend(IndexOf(front), Entry(Upper(Strip(last)), Strip(last)), key);
    if i < |front| {
      FirstSpellingWins(front, i);
    } else {
      assert forall j :: 0 <= j < |front| ==> front[j] == listed[j];
      assert forall v :: Listed(front, v) ==> Upper(v) != key;
      IndexIsCatalogue(front);
      GetMeans(IndexOf(front), key);
    }
  }

  // ---------------------------------------------------------------------
  // Candidate lists

  predicate NoRepeats(names: seq<string>) {
    forall i, j :: 0 <= i < j < |names| ==> names[i] != names[j]
  }

  predicate Clean(names: seq<string>) {
    forall n :: n in names ==> n != "" && Strip(n) == n
  }

  // Append each extra that is not yet a candidate.
  function Merge(candidates: seq<string>, extras: seq<string>): seq<string> {
    if extras == [] then candidates else AddOnce(Merge(candidates, extras[..|extras| - 1]), extras[|extras| - 1])
  }

  lemma {:induction false} MergeMeans(candidates: seq<string>, extras: seq<string>)
    requires NoRepeats(candidates) && Clean(extras)
    ensures NoRepeats(Merge(candidates, extras)) && candidates <= Merge(candidates, extras)
    ensures forall n :: n in Merge(candidates, extras) <==> n in candidates || n in extras
  {
    hide Strip;
    if extras != [] {
      var front, last := extras[..|extras| - 1], extras[|extras| - 1];
      forall n | n in front
        ensures n != "" && Strip(n) == n
      {
        assert n in extras;
      }
      assert last in extras;
      MergeMeans(candidates, front);
    }
  }

  method Extend(candidates: seq<string>, extras: seq<string>) returns (longer: seq<string>)
    ensures longer == Merge(candidates, extras)
  {
    hide AddOnce;
    longer := candidates;
    for i := 0 to |extras|
      invariant longer == Merge(candidates, extras[..i])
    {
      assert extras[..i + 1][..i] == extras[..i];
      longer := AddOnce(longer, extras[i]);
    }
    assert extras[..|extras|] == extras;
  }

  // ---------------------------------------------------------------------
  // The history of select calls

  // Call number i names tried[i] and is answered select(i, tried[i]). The calls
  // made for one candidate: one, or two when the first is a call failure.
  function Attempts(before: nat, name: string, select: (nat, string) -> Reply): seq<string> {
    if select(before, name) == Refused(true) then [name, name] else [name]
  }

  function Answer(before: nat, name: string, select: (nat, string) -> Reply): Reply {
    if select(before, name) == Refused(true) then select(before + 1, name) else select(before, name)
  }

  // The calls made when the names are tried in order.
  function Tried(names: seq<string>, select: (nat, string) -> Reply): seq<string> {
    if names == [] then []
    else
      var before := Tried(names[..|names| - 1], select);
      before + Attempts(|before|, names[|names| - 1], select)
  }

  predicate AllRefused(names: seq<string>, select: (nat, string) -> Reply) {
    names != [] ==>
      var front, name := names[..|names| - 1], names[|names| - 1];
      AllRefused(front, select) && Answer(|Tried(front, select)|, name, select).Refused?
  }

  function Times(tried: seq<string>, name: string): nat {
    if tried == [] then 0 else Times(tried[..|tried| - 1], name) + if tried[|tried| - 1] == name then 1 else 0
  }

  lemma TimesSnoc(before: seq<string>, name: string)
    ensures forall m :: Times(before + [name], m) == Times(before, m) + if m == name then 1 else 0
  {
    assert (before + [name])[..|before|] == before;
  }

  lemma TimesAttempts(before: seq<string>, name: string, select: (nat, string) -> Reply)
    ensures var more := Attempts(|before|, name, select);
            forall m :: Times(before + more, m) == Times(before, m) + if m == name then |more| else 0
  {
    hide Times;
    TimesSnoc(before, name);
    TimesSnoc(before + [name], name);
    assert before + [name] + [name] == before + [name, name];
  }

  // Trying distinct names calls each once or twice and nothing else.
  lemma {:induction false} TriedOnceOrTwice(names: seq<string>, select: (nat, string) -> Reply)
    requires NoRepeats(names)
    ensures forall n :: Times(Tried(names, select), n) <= 2 && (Times(Tried(names, select), n) >= 1 <==> n in names)
  {
    if names != [] {
      var front, name := names[..|names| - 1], names[|names| - 1];
      assert names == front + [name];
      TriedOnceOrTwice(front, select);
      TimesAttempts(Tried(front, select), name, select);
    }
  }

  predicate NoGrant(tried: seq<string>, select: (nat, string) -> Reply) {
    forall i: nat | i < |tried| :: select(i, tried[i]).Refused?
  }

  lemma NoGrantSnoc(before: seq<string>, name: string, select: (nat, string) -> Reply)
    requires NoGrant(before, select) && select(|before|, name).Refused?
    ensures NoGrant(before + [name], select)
  {
    var tried := before + [name];
    forall i: nat | i < |tried|
      ensures select(i, tried[i]).Refused?
    {
      if i < |before| {
        assert tried[i] == before[i];
      }
    }
  }

  // When every name is refused, every call made was refused.
  lemma {:induction false} RefusedMeansNoGrant(names: seq<string>, select: (nat, string) -> Reply)
    requires AllRefused(names, select)
    ensures NoGrant(Tried(names, select), select)
  {
    hide NoGrant;
    if names == [] {
      NothingGranted(select);
    } else {
      var front, name := names[..|names| - 1], names[|names| - 1];
      RefusedMeansNoGrant(front, select);
      var before := Tried(front, select);
      NoGrantSnoc(before, name, select);
      if select(|before|, name) == Refused(true) {
        NoGrantSnoc(before + [name], name, select);
        assert before + [name] + [name] == before + [name, name];
      }
    }
  }

  lemma NothingGranted(select: (nat, string) -> Reply)
    ensures NoGrant([], select)
  {
  }

  // Whatever the terminal ever lists comes from one finite set of names.
  ghost predicate Universe(listing: nat -> seq<string>, universe: set<string>) {
    forall k: nat, n | Listed(listing(k), n) :: n in universe
  }

  // The spelling sent to the terminal: the catalogue's, else the caller's own.
  function BrokerName(symbol: string, idx: seq<Entry>): string {
    var found := Resolve(symbol, idx);
    if found.Some? then found.value else Strip(symbol)
  }

  lemma BrokerNameSatisfies(symbol: string, idx: seq<Entry>)
    requires Catalogue(idx) && Strip(symbol) != ""
    ensures Satisfies(BrokerName(symbol, idx), symbol)
    ensures BrokerName(symbol, idx) != "" && Strip(BrokerName(symbol, idx)) == BrokerName(symbol, idx)
    ensures BrokerName(symbol, idx) == Strip(symbol) || Lists(idx, BrokerName(symbol, idx))
  {
    ResolveIsSoundAndComplete(symbol, idx);
    KeyIsIdentity(symbol);
    StripTrims(symbol);
    if Resolve(symbol, idx).Some? {
      var i :| 0 <= i < |idx| && idx[i].name == Resolve(symbol, idx).value;
      AlreadyTrimmed(idx[i].name);
    }
  }

  lemma ExactNamesAreClean(symbol: string, idx: seq<Entry>)
    requires Catalogue(idx)
    ensures Clean(ExactNames(symbol, idx)) && NoRepeats(ExactNames(symbol, idx))
    ensures forall n :: n in ExactNames(symbol, idx) <==> Lists(idx, n) && Satisfies(n, symbol)
  {
    ExactNamesAreTheSatisfyingNames(symbol, idx);
    forall n | n in ExactNames(symbol, idx)
      ensures n != "" && Strip(n) == n
    {
      var i :| 0 <= i < |idx| && idx[i].name == n;
      AlreadyTrimmed(n);
    }
  }

  function Elements(names: seq<string>): set<string> {
    set n | n in names
  }

  // Resolution trims the request itself.
  lemma StripChangesNothing(symbol: string, idx: seq<Entry>)
    ensures Key(Strip(symbol)) == Key(symbol)
    ensures ExactNames(Strip(symbol), idx) == ExactNames(symbol, idx)
    ensures BrokerName(Strip(symbol), idx) == BrokerName(symbol, idx)
  {
    hide Strip, Hits, DeskMates, Deduped, Get, GoldDesk, SilverDesk;
    StripTrims(symbol);
    assert Key(Strip(symbol)) == Key(symbol);
    assert DeskCode(Strip(symbol)) == DeskCode(symbol);
    assert IdentityKeys(Strip(symbol)) == IdentityKeys(symbol);
    assert Resolve(Strip(symbol), idx) == Resolve(symbol, idx);
  }

  lemma NothingTried(select: (nat, string) -> Reply)
    ensures AllRefused([], select) && Tried([], select) == []
  {
  }

  lemma TriedSnoc(names: seq<string>, name: string, select: (nat, string) -> Reply)
    ensures var before := Tried(names, select);
            && Tried(names + [name], select) == before + Attempts(|before|, name, select)
            && (AllRefused(names + [name], select) <==> AllRefused(names, select) && Answer(|before|, name, select).Refused?)
  {
    assert (names + [name])[..|names|] == names;
  }

  // A candidate list: distinct clean spellings that satisfy the request, each
  // the caller's own or one the terminal lists.
  predicate Candidates(names: seq<string>, symbol: string, universe: set<string>, idx: seq<Entry>) {
    && NoRepeats(names) && Clean(names)
    && forall n :: n in names ==> Satisfies(n, symbol) && (n == Strip(symbol) || n in universe || Lists(idx, n))
  }

  // The first candidates: the resolved spelling, then every exact name.
  lemma FirstQueue(symbol: string, idx: seq<Entry>, universe: set<string>, was: seq<Entry>)
    requires Catalogue(idx) && Strip(symbol) != ""
    requires idx == was || forall n :: Lists(idx, n) ==> n in universe
    ensures var queued := Merge([], [BrokerName(symbol, idx)] + ExactNames(symbol, idx));
            Candidates(queued, symbol, universe, was) && forall n :: n in ExactNames(symbol, idx) ==> n in queued
  {
    hide ExactNames, BrokerName, Satisfies, Merge, Catalogue, Strip, Lists;
    var primary, extras := BrokerName(symbol, idx), ExactNames(symbol, idx);
    BrokerNameSatisfies(symbol, idx);
    ExactNamesAreClean(symbol, idx);
    MergeMeans([], [primary] + extras);
  }

  lemma NoCandidates(symbol: string, universe: set<string>, idx: seq<Entry>)
    ensures Candidates([], symbol, universe, idx)
  {
  }

  lemma SelectsAtMostTwice(names: seq<string>, k: nat, symbol: string, universe: set<string>, idx: seq<Entry>,
                           select: (nat, string) -> Reply)
    requires Candidates(names, symbol, universe, idx) && k <= |names|
    ensures forall n :: Times(Tried(names[..k], select), n) <= 2
  {
    hide Satisfies, Clean, Lists, Tried, Times;
    TriedOnceOrTwice(names[..k], select);
  }

  lemma CandidateIsClean(names: seq<string>, name: string, symbol: string, universe: set<string>, idx: seq<Entry>)
    requires Candidates(names, symbol, universe, idx) && name in names
    ensures name != "" && Strip(name) == name
  {
  }

  // A refresh queues only new names of the universe, and all the exact ones.
  lemma RefreshQueues(symbol: string, listed: seq<string>, queued: seq<string>, universe: set<string>, was: seq<Entry>)
    requires Candidates(queued, symbol, universe, was) && forall n | Listed(listed, n) :: n in universe
    ensures var idx := IndexOf(listed); var longer := Merge(queued, ExactNames(symbol, idx));
            && Catalogue(idx) && Candidates(longer, symbol, universe, was)
            && queued <= longer
            && (queued != longer ==> longer[|queued|] in universe && longer[|queued|] !in queued)
            && (forall n :: n in ExactNames(symbol, idx) ==> n in longer)
  {
    hide ExactNames, Satisfies, Merge, Catalogue, Listed, IndexOf, Strip, Lists;
    IndexIsCatalogue(listed);
    ExactNamesAreClean(symbol, IndexOf(listed));
    MergeMeans(queued, ExactNames(symbol, IndexOf(listed)));
  }

  // ---------------------------------------------------------------------
  // The session's selection state

  class SymbolSession {
    var selected: set<string>
    var index: seq<Entry>

    constructor ()
      ensures selected == {} && index == []
    {
      selected, index := {}, [];
    }

    method Clear()
      modifies this
      ensures selected == {} && index == []
    {
      selected, index := {}, [];
    }

    method RefreshIndex(listed: seq<string>)
      modifies this`index
      ensures index == IndexOf(listed)
    {
      hide AddEntry;
      var idx: seq<Entry> := [];
      for i := 0 to |listed|
        invariant idx == IndexOf(listed[..i])
      {
        assert listed[..i + 1][..i] == listed[..i];
        idx := AddEntry(idx, listed[i]);
      }
      assert listed[..|listed|] == listed;
      index := idx;
    }

    method ResolveBrokerSymbol(symbol: string, listed: seq<string>) returns (name: string)
      modifies this`index
      ensures name == BrokerName(symbol, index)
      ensures index == if Strip(symbol) == "" || Get(old(index), Key(symbol)).Some? then old(index) else IndexOf(listed)
    {
      hide Strip, Upper, IdentityKeys, DeskCode;
      StripTrims(symbol);
      var sym := Strip(symbol);
      if sym == "" {
        return sym;
      }
      var exact := Get(index, Upper(sym));
      if exact.Some? {
        return exact.value;
      }
      RefreshIndex(listed);
      exact := Get(index, Upper(sym));
      if exact.Some? {
        return exact.value;
      }
      var aliased := Resolve(sym, index);
      return if aliased.Some? then aliased.value else sym;
    }

    // The attempts on one candidate: a select, and after a call failure one more
    // with the catalogue refreshed and its new names queued.
    method TryCandidate(symbol: string, exact: string, select: (nat, string) -> Reply, listing: nat -> seq<string>,
                        before: seq<string>, queued: seq<string>)
      returns (ok: bool, tried: seq<string>, candidates: seq<string>)
      modifies this
      ensures tried == before + Attempts(|before|, exact, select)
      ensures ok == Answer(|before|, exact, select).Granted?
      ensures selected == if ok then old(selected) + {exact} else old(selected)
      ensures var renewed := IndexOf(listing(|before| + 1));
              var retried := select(|before|, exact) == Refused(true);
              var latest := if retried then renewed else old(index);
              && index == (if ok then AddEntry(latest, exact) else latest)
              && candidates == (if retried then Merge(queued, ExactNames(symbol, renewed)) else queued)
    {
      hide ExactNames, AddEntry, Merge, IndexOf;
      tried, candidates := before, queued;
      var attempt := 0;
      while attempt < 2
        invariant 0 <= attempt <= 1 && selected == old(selected)
        invariant attempt == 0 ==> tried == before && candidates == queued && index == old(index)
        invariant attempt == 1 ==>
            && tried == before + [exact] && select(|before|, exact) == Refused(true)
            && index == IndexOf(listing(|before| + 1)) && candidates == Merge(queued, ExactNames(symbol, index))
        decreases 2 - attempt
      {
        tried := tried + [exact];
        var reply := select(|tried| - 1, exact);
        if reply.Granted? {
          selected := selected + {exact};
          index := AddEntry(index, exact);
          return true, tried, candidates;
        }
        if attempt == 1 || !reply.callFailed {
          break;
        }
        RefreshIndex(listing(|tried|));
        var extras := CatalogueExactNames(symbol, index);
        candidates := Extend(candidates, extras);
        attempt := 1;
      }
      ok := false;
    }

    // Try the queue, which grows while it is tried. Candidate number `at` is the
    // one returned, or there is none and `at` is their number.
    method SelectFirst(symbol: string, first: seq<string>, select: (nat, string) -> Reply, listing: nat -> seq<string>,
                       ghost universe: set<string>, ghost was: seq<Entry>)
      returns (r: Result<string, seq<string>>, ghost candidates: seq<string>, ghost at: nat, ghost made: seq<string>)
      requires Catalogue(index) && Universe(listing, universe) && Candidates(first, symbol, universe, was)
      requires forall n :: n in ExactNames(symbol, index) ==> n in first
      modifies this
      ensures Catalogue(index) && Candidates(candidates, symbol, universe, was) && first <= candidates
      ensures at <= |candidates| && AllRefused(candidates[..at], select)
      ensures forall n :: n in candidates[..at] ==> n !in old(selected)
      ensures r.Ok? ==> at < |candidates| && r.value == candidates[at] && selected == old(selected) + {r.value}
      ensures made == Tried(if r.Ok? && r.value !in old(selected) then candidates[..at + 1] else candidates[..at], select)
      ensures r.Ok? && r.value !in old(selected) ==>
                && Answer(|Tried(candidates[..at], select)|, r.value, select).Granted?
                && Get(index, Upper(r.value)).Some?
      ensures r.Err? ==> at == |candidates| && selected == old(selected) && r.error == made
      ensures r.Err? ==> forall n :: n in ExactNames(symbol, index) ==> n in candidates
    {
      hide ExactNames, Candidates, Catalogue, BrokerName, Get, Strip, Upper, Key, Resolve, IdentityKeys, DeskCode;
      hide IndexOf, AddEntry, Merge, AllRefused, Tried, Lists, Listed, Attempts, Answer;
      var queued := first;
      var tried: seq<string> := [];
      var i := 0;
      NothingTried(select);
      while i < |queued|
        invariant 0 <= i <= |queued| && Catalogue(index) && first <= queued
        invariant Candidates(queued, symbol, universe, was)
        invariant forall n :: n in ExactNames(symbol, index) ==> n in queued
        invariant selected == old(selected) && forall n :: n in queued[..i] ==> n !in selected
        invariant tried == Tried(queued[..i], select) && AllRefused(queued[..i], select)
        decreases universe - Elements(queued), |queued| - i
      {
        var exact := queued[i];
        if exact in selected {
          return Ok(exact), queued, i, tried;
        }
        ghost var before, renewed := queued, listing(|tried| + 1);
        RefreshQueues(symbol, renewed, queued, universe, was);
        CandidateIsClean(queued, exact, symbol, universe, was);
        TriedSnoc(queued[..i], exact, select);
        ghost var latest := if select(|tried|, exact) == Refused(true) then IndexOf(renewed) else index;
        AddEntryKeepsCatalogue(latest, exact);
        var ok;
        ok, tried, queued := TryCandidate(symbol, exact, select, listing, tried, queued);
        assert queued[..i] == before[..i] && queued[..i + 1] == before[..i] + [exact];
        if ok {
          return Ok(exact), queued, i, tried;
        }
        i := i + 1;
        assert queued != before ==> queued[|before|] in universe - Elements(before);
      }
      assert queued[..|queued|] == queued;
      return Err(tried), queued, i, tried;
    }

    // Select the first candidate spelling the terminal grants.
    method EnsureSymbol(symbol: string, select: (nat, string) -> Reply, listing: nat -> seq<string>, ghost universe: set<string>)
      returns (r: Result<string, seq<string>>, ghost candidates: seq<string>, ghost at: nat, ghost made: seq<string>)
      requires Catalogue(index) && Universe(listing, universe)
      modifies this
      ensures Catalogue(index) && Candidates(candidates, symbol, universe, old(index)) && at <= |candidates|
      ensures Strip(symbol) == "" ==> r == Err([]) && candidates == []
      ensures Strip(symbol) != "" ==>
                var idx := if Get(old(index), Key(symbol)).Some? then old(index) else IndexOf(listing(0));
                Merge([], [BrokerName(symbol, idx)] + ExactNames(symbol, idx)) <= candidates
      // The candidates before the one returned were refused, and none was cached.
      ensures AllRefused(candidates[..at], select)
      ensures forall n :: n in candidates[..at] ==> n !in old(selected)
      // The selects made: those of the refused candidates, and of the one granted
      // unless it was cached; no name more than twice.
      ensures r.Ok? ==> at < |candidates| && r.value == candidates[at] && selected == old(selected) + {r.value}
      ensures made == Tried(if r.Ok? && r.value !in old(selected) then candidates[..at + 1] else candidates[..at], select)
      ensures forall n :: Times(made, n) <= 2
      ensures r.Ok? && r.value !in old(selected) ==>
                && Answer(|Tried(candidates[..at], select)|, r.value, select).Granted?
                && Get(index, Upper(r.value)).Some?
      // Failure leaves no spelling of the final catalogue untried.
      ensures r.Err? ==> at == |candidates| && selected == old(selected) && r.error == made
      ensures r.Err? && Strip(symbol) != "" ==> forall n :: n in ExactNames(symbol, index) ==> n in candidates
    {
      hide ExactNames, Candidates, Catalogue, BrokerName, Get, Strip, Upper, Key, Times;
      hide IndexOf, AddEntry, Merge, AllRefused, Tried, Lists, Listed, Attempts, Answer;
      candidates, at, made := [], 0, [];
      var requested := Strip(symbol);
      if requested == "" {
        NothingTried(select);
        NoCandidates(symbol, universe, index);
        SelectsAtMostTwice([], 0, symbol, universe, index, select);
        return Err([]), [], 0, [];
      }
      var primary := ResolveBrokerSymbol(requested, listing(0));
      StripTrims(symbol);
      IndexIsCatalogue(listing(0));
      StripChangesNothing(symbol, index);
      FirstQueue(symbol, index, universe, old(index));
      var extras := CatalogueExactNames(requested, index);
      var queued := Extend([], [primary] + extras);
      r, candidates, at, made := SelectFirst(symbol, queued, select, listing, universe, old(index));
      SelectsAtMostTwice(candidates, if r.Ok? && r.value !in old(selected) then at + 1 else at, symbol, universe, old(index), select);
    }
  }
}
