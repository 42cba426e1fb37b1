// Catalogue-only symbol spelling (services/mt5_gateway/symbol_resolve.py).
module SymbolResolve {
  import opened Text
  import opened Wrappers
  import opened OwnerLimits

  // The catalogue index: upper-case key to exact spelling, in insertion order.
  datatype Entry = Entry(key: string, name: string)

  const GOLD_IDENTITY := ["XAUUSD", "XAUUSD_I", "GOLD", "XAUUSDM"]
  const SILVER_IDENTITY := ["XAGUSD", "XAGUSD_I", "SILVER"]

  function Key(symbol: string): string {
    Upper(Strip(symbol))
  }

  function DeskCode(symbol: string): string {
    var key := Key(symbol);
    if EndsWith(key, "_I") && |key| > 3 then key[..|key| - 2] else key
  }

  function Get(idx: seq<Entry>, key: string): Option<string> {
    if idx == [] then None else if idx[0].key == key then Some(idx[0].name) else Get(idx[1..], key)
  }

  // Append a name unless it is blank or already listed.
  function AddOnce(ordered: seq<string>, name: string): seq<string> {
    if Strip(name) == "" || Strip(name) in ordered then ordered else ordered + [Strip(name)]
  }

  function Deduped(names: seq<string>): seq<string> {
    if names == [] then [] else AddOnce(Deduped(names[..|names| - 1]), names[|names| - 1])
  }

  lemma DedupedSnoc(names: seq<string>, name: string)
    ensures Deduped(names + [name]) == AddOnce(Deduped(names), name)
  {
    assert (names + [name])[..|names|] == names;
  }

  predicate GoldDesk(desk: string) {
    desk in {"XAUUSD", "GOLD", "XAUUSDM"} || Contains(desk, "XAU")
  }

  predicate SilverDesk(desk: string) {
    desk in {"XAGUSD", "SILVER"} || Contains(desk, "XAG")
  }

  function IdentityNames(symbol: string): seq<string> {
    var desk := DeskCode(symbol);
    [Key(symbol), desk] + (if desk != "" then [desk + "_I"] else [])
    + (if GoldDesk(desk) then GOLD_IDENTITY else []) + (if SilverDesk(desk) then SILVER_IDENTITY else [])
  }

  // The upper-case keys that share the symbol's identity, in order of preference.
  function IdentityKeys(symbol: string): seq<string> {
    if Key(symbol) == "" then [] else Deduped(IdentityNames(symbol))
  }

  method IdentityAliasKeys(symbol: string) returns (ordered: seq<string>)
    ensures ordered == IdentityKeys(symbol)
  {
    hide IdentityNames, AddOnce, Key;
    if Key(symbol) == "" {
      return [];
    }
    var names := IdentityNames(symbol);
    ordered := [];
    for i := 0 to |names|
      invariant ordered == Deduped(names[..i])
    {
      assert names[..i + 1][..i] == names[..i];
      ordered := AddOnce(ordered, names[i]);
    }
    assert names[..|names|] == names;
  }

  function Hits(keys: seq<string>, idx: seq<Entry>): seq<string> {
    if keys == [] then []
    else
      var hit := Get(idx, keys[|keys| - 1]);
      Hits(keys[..|keys| - 1], idx) + if hit.Some? then [hit.value] else []
  }

  function DeskMates(desk: string, idx: seq<Entry>): seq<string> {
    if idx == [] then []
    else
      var last := idx[|idx| - 1];
      DeskMates(desk, idx[..|idx| - 1]) + if DeskCode(last.key) == desk then [last.name] else []
  }

  // An exact hit, else the first identity alias in the catalogue, else the first
  // catalogue name with the same desk code.
  function Resolve(requested: string, idx: seq<Entry>): Option<string> {
    var raw := Strip(requested);
    if raw == "" || idx == [] then None
    else if Get(idx, Upper(raw)).Some? then Get(idx, Upper(raw))
    else if Hits(IdentityKeys(Upper(raw)), idx) != [] then Some(Hits(IdentityKeys(Upper(raw)), idx)[0])
    else if DeskCode(Upper(raw)) == "" || DeskMates(DeskCode(Upper(raw)), idx) == [] then None
    else Some(DeskMates(DeskCode(Upper(raw)), idx)[0])
  }

  function OfferedNames(requested: string, idx: seq<Entry>): seq<string> {
    var primary := Resolve(requested, idx);
    (if primary.Some? then [primary.value] else [])
    + Hits(IdentityKeys(requested), idx)
    + if DeskCode(requested) != "" then DeskMates(DeskCode(requested), idx) else []
  }

  // Every exact catalogue name that could satisfy the request, best first.
  function ExactNames(requested: string, idx: seq<Entry>): seq<string> {
    Deduped(OfferedNames(requested, idx))
  }

  method AddHits(keys: seq<string>, idx: seq<Entry>, ghost offered: seq<string>, before: seq<string>)
    returns (ordered: seq<string>)
    requires before == Deduped(offered)
    ensures ordered == Deduped(offered + Hits(keys, idx))
  {
    hide Get, AddOnce;
    ordered := before;
    assert offered + Hits(keys[..0], idx) == offered;
    for i := 0 to |keys|
      invariant ordered == Deduped(offered + Hits(keys[..i], idx))
    {
      assert keys[..i + 1][..i] == keys[..i];
      var hit := Get(idx, keys[i]);
      ghost var next := if hit.Some? then [hit.value] else [];
      assert offered + Hits(keys[..i + 1], idx) == offered + Hits(keys[..i], idx) + next;
      if hit.Some? {
        DedupedSnoc(offered + Hits(keys[..i], idx), hit.value);
        ordered := AddOnce(ordered, hit.value);
      } else {
        assert offered + Hits(keys[..i + 1], idx) == offered + Hits(keys[..i], idx);
      }
    }
    assert keys[..|keys|] == keys;
  }

  method AddDeskMates(desk: string, idx: seq<Entry>, ghost offered: seq<string>, before: seq<string>)
    returns (ordered: seq<string>)
    requires before == Deduped(offered)
    ensures ordered == Deduped(offered + DeskMates(desk, idx))
  {
    hide DeskCode, AddOnce;
    ordered := before;
    assert offered + DeskMates(desk, idx[..0]) == offered;
    for i := 0 to |idx|
      invariant ordered == Deduped(offered + DeskMates(desk, idx[..i]))
    {
      assert idx[..i + 1][..i] == idx[..i];
      ghost var next := if DeskCode(idx[i].key) == desk then [idx[i].name] else [];
      assert offered + DeskMates(desk, idx[..i + 1]) == offered + DeskMates(desk, idx[..i]) + next;
      if DeskCode(idx[i].key) == desk {
        DedupedSnoc(offered + DeskMates(desk, idx[..i]), idx[i].name);
        ordered := AddOnce(ordered, idx[i].name);
      } else {
        assert offered + DeskMates(desk, idx[..i + 1]) == offered + DeskMates(desk, idx[..i]);
      }
    }
    assert idx[..|idx|] == idx;
  }

  method CatalogueExactNames(requested: string, idx: seq<Entry>) returns (ordered: seq<string>)
    ensures ordered == ExactNames(requested, idx)
  {
    hide DeskCode, Resolve, IdentityKeys, AddOnce, Hits, DeskMates;
    var primary := Resolve(requested, idx);
    ghost var offered: seq<string> := if primary.Some? then [primary.value] else [];
    ordered := [];
    if primary.Some? {
      DedupedSnoc([], primary.value);
      assert [] + [primary.value] == offered;
      ordered := AddOnce(ordered, primary.value);
    }
    var keys := IdentityAliasKeys(requested);
    ordered := AddHits(keys, idx, offered, ordered);
    var desk := DeskCode(requested);
    if desk != "" {
      ordered := AddDeskMates(desk, idx, offered + Hits(keys, idx), ordered);
    } else {
      assert offered + Hits(keys, idx) + [] == offered + Hits(keys, idx);
    }
  }

  // ---------------------------------------------------------------------
  // What resolution promises over a catalogue

  // What the index builder keeps: non-blank trimmed names, each under its own
  // upper case, one entry per key.
  predicate Catalogue(idx: seq<Entry>) {
    && (forall i :: 0 <= i < |idx| ==> idx[i].name != "" && Trimmed(idx[i].name) && idx[i].key == Upper(idx[i].name))
    && (forall i, j :: 0 <= i < j < |idx| ==> idx[i].key != idx[j].key)
  }

  predicate Lists(idx: seq<Entry>, name: string) {
    exists i | 0 <= i < |idx| :: idx[i].name == name
  }

  lemma {:induction false} GetMeans(idx: seq<Entry>, key: string)
    requires Catalogue(idx)
    ensures Get(idx, key).Some? ==> Lists(idx, Get(idx, key).value) && Upper(Get(idx, key).value) == key
    ensures forall i :: 0 <= i < |idx| && idx[i].key == key ==> Get(idx, key) == Some(idx[i].name)
  {
    if idx != [] && idx[0].key != key {
      GetMeans(idx[1..], key);
      assert forall i :: 0 < i < |idx| ==> idx[i] == idx[1..][i - 1];
      if Get(idx, key).Some? {
        var i :| 0 <= i < |idx[1..]| && idx[1..][i].name == Get(idx, key).value;
        assert idx[i + 1].name == Get(idx, key).value;
      }
    }
  }

  predicate Offers(names: seq<string>, n: string) {
    exists i | 0 <= i < |names| :: Strip(names[i]) == n
  }

  lemma OffersSnoc(front: seq<string>, last: string, n: string)
    ensures Offers(front + [last], n) <==> Offers(front, n) || n == Strip(last)
  {
    hide Strip;
    var names := front + [last];
    if Offers(names, n) {
      var i :| 0 <= i < |names| && Strip(names[i]) == n;
      assert i < |front| ==> front[i] == names[i];
    }
    assert Strip(names[|names| - 1]) == Strip(last);
    if Offers(front, n) {
      var i :| 0 <= i < |front| && Strip(front[i]) == n;
      assert Strip(names[i]) == n;
    }
  }

  lemma {:induction false} DedupedMeans(names: seq<string>)
    ensures forall n :: n in Deduped(names) <==> n != "" && Offers(names, n)
    ensures forall i, j :: 0 <= i < j < |Deduped(names)| ==> Deduped(names)[i] != Deduped(names)[j]
    ensures names != [] && Strip(names[0]) != "" ==> Deduped(names) != [] && Deduped(names)[0] == Strip(names[0])
  {
    hide Strip, Offers;
    if names == [] {
      NothingOffered();
    } else {
      var front, last := names[..|names| - 1], names[|names| - 1];
      DedupedMeans(front);
      assert names == front + [last];
      forall n
        ensures Offers(names, n) <==> Offers(front, n) || n == Strip(last)
      {
        OffersSnoc(front, last, n);
      }
      assert front != [] ==> front[0] == names[0];
    }
  }

  lemma NothingOffered()
    ensures forall n :: !Offers([], n)
  {
  }

  lemma {:induction false} HitsMeans(keys: seq<string>, idx: seq<Entry>)
    requires Catalogue(idx)
    ensures forall n :: n in Hits(keys, idx) <==> Lists(idx, n) && Upper(n) in keys
  {
    if keys != [] {
      var front, last := keys[..|keys| - 1], keys[|keys| - 1];
      HitsMeans(front, idx);
      GetMeans(idx, last);
      assert keys == front + [last];
      forall n
        ensures n in Hits(keys, idx) <==> Lists(idx, n) && Upper(n) in keys
      {
        if Lists(idx, n) && Upper(n) == last {
          var i :| 0 <= i < |idx| && idx[i].name == n;
          assert Get(idx, last) == Some(idx[i].name);
        }
      }
    }
  }

  lemma {:induction false} DeskMatesMeans(desk: string, idx: seq<Entry>)
    requires Catalogue(idx)
    ensures forall n :: n in DeskMates(desk, idx) <==> Lists(idx, n) && DeskCode(n) == desk
  {
    hide Lists, DeskCode;
    if idx != [] {
      var front, last := idx[..|idx| - 1], idx[|idx| - 1];
      DeskMatesMeans(desk, front);
      assert idx == front + [last];
      DeskCodeOfKey(last.name);
      ListsGrows(front, last);
    } else {
      NothingListed();
    }
  }

  lemma DeskCodeOfKey(name: string)
    ensures DeskCode(Upper(name)) == DeskCode(name)
  {
    StripUpper(name);
    StripTrims(name);
  }

  lemma NothingListed()
    ensures forall n :: !Lists([], n)
  {
  }

  lemma ListsGrows(idx: seq<Entry>, last: Entry)
    ensures forall n :: Lists(idx + [last], n) <==> Lists(idx, n) || n == last.name
  {
    var grown := idx + [last];
    assert grown[|idx|] == last;
    forall n | Lists(idx, n)
      ensures Lists(grown, n)
    {
      var i :| 0 <= i < |idx| && idx[i].name == n;
      assert grown[i].name == n;
    }
  }

  // Normalising a request twice changes no key, desk code or alias.
  lemma KeyStable(requested: string)
    ensures Key(Upper(Strip(requested))) == Key(requested)
    ensures IdentityKeys(Upper(Strip(requested))) == IdentityKeys(requested)
    ensures DeskCode(Upper(Strip(requested))) == DeskCode(requested)
    ensures Strip(requested) == "" <==> Key(requested) == ""
    ensures Key(requested) == "" <==> DeskCode(requested) == ""
  {
    StripTrims(requested);
    StripUpper(Strip(requested));
  }

  lemma KeyIsIdentity(requested: string)
    requires Key(requested) != ""
    ensures Key(requested) in IdentityKeys(requested)
  {
    DedupedMeans(IdentityNames(requested));
    assert Key(requested) == IdentityNames(requested)[0];
    StripTrims(requested);
    StripUpper(Strip(requested));
    assert Deduped(IdentityNames(requested))[0] == Key(requested);
  }

  // A catalogue name satisfies a request when it is one of its identity aliases
  // or shares its desk code.
  predicate Satisfies(name: string, requested: string) {
    Upper(name) in IdentityKeys(requested) || (DeskCode(requested) != "" && DeskCode(name) == DeskCode(requested))
  }

  // Resolution returns only catalogue names that satisfy the request, and fails
  // only when none does.
  lemma ResolveIsSoundAndComplete(requested: string, idx: seq<Entry>)
    requires Catalogue(idx)
    ensures var r := Resolve(requested, idx);
            && (r.Some? ==> Lists(idx, r.value) && Satisfies(r.value, requested))
            && (r.None? <==> forall n :: Lists(idx, n) ==> !Satisfies(n, requested))
  {
    KeyStable(requested);
    var r := Resolve(requested, idx);
    HitsMeans(IdentityKeys(requested), idx);
    DeskMatesMeans(DeskCode(requested), idx);
    GetMeans(idx, Key(requested));
    if Key(requested) != "" {
      KeyIsIdentity(requested);
      if Get(idx, Key(requested)).None? {
        var hits, mates := Hits(IdentityKeys(requested), idx), DeskMates(DeskCode(requested), idx);
        if hits != [] {
          assert hits[0] in hits;
        } else if mates != [] {
          assert mates[0] in mates;
        }
        forall n | Lists(idx, n) && Satisfies(n, requested)
          ensures r.Some?
        {
          assert n in hits || n in mates;
        }
      }
    }
    if r.Some? {
      assert Lists(idx, r.value);
    }
  }

  // A catalogue name resolves to itself, so resolution is idempotent.
  lemma CatalogueNameResolvesToItself(idx: seq<Entry>, name: string)
    requires Catalogue(idx) && Lists(idx, name)
    ensures Resolve(name, idx) == Some(name)
  {
    var i :| 0 <= i < |idx| && idx[i].name == name;
    StripTrims(name);
    GetMeans(idx, Upper(name));
    assert idx[i].key == Upper(name);
  }

  lemma ResolveIdempotent(requested: string, idx: seq<Entry>)
    requires Catalogue(idx) && Resolve(requested, idx).Some?
    ensures Resolve(Resolve(requested, idx).value, idx) == Resolve(requested, idx)
  {
    ResolveIsSoundAndComplete(requested, idx);
    CatalogueNameResolvesToItself(idx, Resolve(requested, idx).value);
  }

  lemma HasMember(names: seq<string>)
    ensures names == [] <==> forall n :: n !in names
  {
    if names != [] {
      assert names[0] in names;
    }
  }

  // The exact names are, without repeats, all catalogue names that satisfy the
  // request, headed by the resolved one.
  lemma ExactNamesAreTheSatisfyingNames(requested: string, idx: seq<Entry>)
    requires Catalogue(idx)
    ensures var names, r := ExactNames(requested, idx), Resolve(requested, idx);
            && (forall n :: n in names <==> Lists(idx, n) && Satisfies(n, requested))
            && (forall i, j :: 0 <= i < j < |names| ==> names[i] != names[j])
            && (r.None? <==> names == [])
            && (r.Some? ==> names[0] == r.value)
  {
    hide Resolve, Satisfies, DeskCode, IdentityKeys, Hits, DeskMates;
    OfferedMeans(requested, idx);
    ResolveIsSoundAndComplete(requested, idx);
    DedupedMeans(OfferedNames(requested, idx));
    HasMember(ExactNames(requested, idx));
    assert Resolve(requested, idx).Some? ==> OfferedNames(requested, idx)[0] == Resolve(requested, idx).value;
  }

  lemma OfferedMeans(requested: string, idx: seq<Entry>)
    requires Catalogue(idx)
    ensures forall n :: n in OfferedNames(requested, idx) <==> Lists(idx, n) && Satisfies(n, requested)
    ensures forall n :: n in OfferedNames(requested, idx) <==> n != "" && Offers(OfferedNames(requested, idx), n)
    ensures forall n :: n in OfferedNames(requested, idx) ==> n != "" && Strip(n) == n
  {
    hide Resolve, DeskCode, IdentityKeys, Hits, DeskMates, Strip;
    ResolveIsSoundAndComplete(requested, idx);
    HitsMeans(IdentityKeys(requested), idx);
    DeskMatesMeans(DeskCode(requested), idx);
    var offered := OfferedNames(requested, idx);
    forall n | n in offered
      ensures n != "" && Strip(n) == n
    {
      var i :| 0 <= i < |idx| && idx[i].name == n;
      AlreadyTrimmed(n);
    }
    forall n
      ensures n in offered <==> n != "" && Offers(offered, n)
    {
      if n in offered {
        var i :| 0 <= i < |offered| && offered[i] == n;
        assert Strip(offered[i]) == n;
      }
    }
  }

  // ---------------------------------------------------------------------
  // Does a Gold request stay Gold under the name that is sent?

  lemma {:induction false} KeepConcat(a: string, b: string)
    ensures KeepCodeChars(a + b) == KeepCodeChars(a) + KeepCodeChars(b)
  {
    if a == [] {
      assert a + b == b;
    } else {
      assert (a + b)[1..] == a[1..] + b;
      KeepConcat(a[1..], b);
    }
  }

  lemma StartsAt(s: string, i: nat, part: string)
    requires i <= |s|
    ensures StartsWith(s[i..], part) <==> i + |part| <= |s| && forall k :: 0 <= k < |part| ==> part[k] == s[i + k]
  {
    if i + |part| <= |s| {
      assert forall k :: 0 <= k < |part| ==> s[i..][..|part|][k] == s[i + k];
    }
  }

  lemma ContainsSnoc(s: string, c: char, part: string)
    requires c !in part && part != ""
    ensures Contains(s + [c], part) <==> Contains(s, part)
  {
    var t := s + [c];
    assert part[|part| - 1] != c;
    if Contains(t, part) {
      var i :| 0 <= i <= |t| && StartsWith(t[i..], part);
      StartsAt(t, i, part);
      assert i + |part| <= |s|;
      StartsAt(s, i, part);
    }
    if Contains(s, part) {
      var i :| 0 <= i <= |s| && StartsWith(s[i..], part);
      StartsAt(s, i, part);
      StartsAt(t, i, part);
    }
  }

  // The institutional suffix leaves a Gold spelling Gold, except on "GOLD".
  lemma SuffixKeepsGold(key: string)
    ensures GoldText(KeepCodeChars(key + "_I")) <==> GoldText(KeepCodeChars(key)) && KeepCodeChars(key) != "GOLD"
  {
    KeepConcat(key, "_I");
    var u := KeepCodeChars(key);
    assert KeepCodeChars("_I") == "I";
    assert u + "I" == u + ['I'];
    assert (u + "I")[|u|] == 'I';
    ContainsSnoc(u, 'I', "XAUUSD");
    ContainsSnoc(u, 'I', "XAU");
    ContainsSnoc(u, 'I', "USD");
    GoldLiterals();
  }

  lemma LacksChar(s: string, c: char, part: string)
    requires c in part && c !in s
    ensures !Contains(s, part)
  {
    var k :| 0 <= k < |part| && part[k] == c;
    forall i | 0 <= i <= |s|
      ensures !StartsWith(s[i..], part)
    {
      StartsAt(s, i, part);
      assert i + k < |s| ==> s[i + k] in s;
    }
  }

  lemma GoldLiterals()
    ensures Contains("XAUUSD", "XAUUSD") && Contains("XAUUSDM", "XAUUSD")
    ensures !Contains("GOLD", "XAUUSD") && !Contains("GOLD", "XAU")
  {
    assert StartsWith("XAUUSD"[0..], "XAUUSD");
    assert StartsWith("XAUUSDM"[0..], "XAUUSD");
    LacksChar("GOLD", 'X', "XAUUSD");
    LacksChar("GOLD", 'X', "XAU");
  }

  lemma GoldAliasesAreGold(k: string)
    requires k in GOLD_IDENTITY
    ensures GoldText(KeepCodeChars(k))
  {
    hide KeepCodeChars, Contains;
    KeepCodeCharsAll("XAUUSD");
    KeepCodeCharsAll("XAUUSDM");
    KeepCodeCharsAll("GOLD");
    if k == "XAUUSD_I" {
      assert k == "XAUUSD" + "_I";
      SuffixKeepsGold("XAUUSD");
    }
  }

  lemma SilverLiterals()
    ensures !GoldText("XAGUSD") && !GoldText("SILVER")
  {
    LacksChar("SILVER", 'X', "XAUUSD");
    LacksChar("SILVER", 'X', "XAU");
    NoGoldIn("XAGUSD", "XAU");
    NoGoldIn("XAGUSD", "XAUUSD");
  }

  // "XAG" never reads as "XAU".
  lemma NoGoldIn(s: string, part: string)
    requires s == "XAGUSD" && |part| >= 3 && part[0] == 'X' && part[2] == 'U'
    ensures !Contains(s, part)
  {
    forall i | 0 <= i <= |s|
      ensures !StartsWith(s[i..], part)
    {
      StartsAt(s, i, part);
      assert i + 2 < |s| && s[i] == 'X' ==> s[i + 2] == 'G';
    }
  }

  lemma SilverAliasesAreNot(k: string)
    requires k in SILVER_IDENTITY
    ensures !GoldText(KeepCodeChars(k))
  {
    hide KeepCodeChars, Contains, GoldText;
    SilverLiterals();
    KeepCodeCharsAll("XAGUSD");
    KeepCodeCharsAll("SILVER");
    if k == "XAGUSD_I" {
      assert k == "XAGUSD" + "_I";
      SuffixKeepsGold("XAGUSD");
    }
  }

  lemma {:induction false} KeepStripped(s: string)
    ensures KeepCodeChars(StripLeft(s)) == KeepCodeChars(s)
    ensures KeepCodeChars(StripRight(s)) == KeepCodeChars(s)
    decreases |s|
  {
    if |s| > 0 && IsSpace(s[0]) {
      KeepStripped(s[1..]);
    }
    if |s| > 0 && IsSpace(s[|s| - 1]) {
      KeepStripped(s[..|s| - 1]);
      assert s == s[..|s| - 1] + [s[|s| - 1]];
      KeepConcat(s[..|s| - 1], [s[|s| - 1]]);
    }
  }

  lemma DeskOfKey(symbol: string)
    ensures Key(symbol) == DeskCode(symbol) || Key(symbol) == DeskCode(symbol) + "_I"
  {
    var key := Key(symbol);
    assert EndsWith(key, "_I") ==> key == key[..|key| - 2] + "_I";
  }

  // Only a suffix of a longer code is taken off.
  lemma DeskCodeMeans(symbol: string)
    ensures if |Key(symbol)| > 3 && EndsWith(Key(symbol), "_I") then Key(symbol) == DeskCode(symbol) + "_I"
            else Key(symbol) == DeskCode(symbol)
  {
    var key := Key(symbol);
    assert EndsWith(key, "_I") ==> key == key[..|key| - 2] + "_I";
  }

  lemma IdentityMeans(symbol: string, k: string)
    requires k in IdentityKeys(symbol)
    ensures k in [Key(symbol), Strip(DeskCode(symbol)), DeskCode(symbol) + "_I"] + GOLD_IDENTITY + SILVER_IDENTITY
  {
    hide Strip, Upper, GoldDesk, SilverDesk;
    var names := IdentityNames(symbol);
    DedupedMeans(names);
    var i :| 0 <= i < |names| && Strip(names[i]) == k;
    NamesAreTrimmed(symbol);
    assert i != 1 ==> k == names[i];
  }

  lemma NamesAreTrimmed(symbol: string)
    ensures forall i :: 0 <= i < |IdentityNames(symbol)| && i != 1 ==> Strip(IdentityNames(symbol)[i]) == IdentityNames(symbol)[i]
  {
    var names, desk := IdentityNames(symbol), DeskCode(symbol);
    StripTrims(symbol);
    assert Trimmed(Key(symbol));
    assert desk != "" ==> Trimmed(desk + "_I");
    forall i | 0 <= i < |names| && i != 1
      ensures Strip(names[i]) == names[i]
    {
      assert Trimmed(names[i]);
      AlreadyTrimmed(names[i]);
    }
  }

  // Every spelling offered for a Gold request is Gold, save the silver aliases
  // and the suffixed form of a code that reads "GOLD".
  lemma GoldRequestStaysGold(requested: string, idx: seq<Entry>, name: string)
    requires Catalogue(idx) && IsGold(requested) && name in ExactNames(requested, idx)
    ensures IsGold(name) <==>
            && Upper(name) !in SILVER_IDENTITY
            && !(KeepCodeChars(DeskCode(requested)) == "GOLD" && Upper(name) == DeskCode(requested) + "_I")
  {
    hide ExactNames, GoldText, KeepCodeChars, StripLeft, StripRight, Upper, IdentityKeys, DeskCode;
    ExactNamesAreTheSatisfyingNames(requested, idx);
    var desk, key := DeskCode(requested), Upper(name);
    var i :| 0 <= i < |idx| && idx[i].name == name;
    AlreadyTrimmed(name);
    assert Key(name) == key;
    DeskOfKey(requested);
    DeskOfKey(name);
    SuffixKeepsGold(desk);
    assert GoldText(KeepCodeChars(desk));
    KeepStripped(desk);
    KeepStripped(StripLeft(desk));
    if key in IdentityKeys(requested) {
      IdentityMeans(requested, key);
    }
    if key in SILVER_IDENTITY {
      SilverAliasesAreNot(key);
    } else if key in GOLD_IDENTITY {
      GoldAliasesAreGold(key);
    }
  }

  lemma SuffixedGoldReads()
    ensures Trimmed("GOLD_i") && Upper("GOLD_i") == "GOLD_I" && "GOLD_I" == "GOLD" + "_I"
    ensures DeskCode("GOLD_i") == "GOLD" && DeskCode("GOLD") == "GOLD"
    ensures GoldCode("GOLD_i") == KeepCodeChars("GOLD_I") && GoldCode("GOLD") == KeepCodeChars("GOLD")
  {
    hide KeepCodeChars;
    AlreadyUpper("GOLD");
    AlreadyTrimmed("GOLD_i");
    assert Upper("GOLD_i") == "GOLD_I";
    assert "GOLD_I"[4..] == "_I" && "GOLD_I"[..4] == "GOLD";
  }

  // A catalogue that lists only "GOLD_i" is served for a "GOLD" request, yet
  // that spelling is not recognised as Gold.
  lemma SuffixedGoldIsNotRecognised()
    ensures var idx := [Entry("GOLD_I", "GOLD_i")];
            && Catalogue(idx) && IsGold("GOLD") && Resolve("GOLD", idx) == Some("GOLD_i") && !IsGold("GOLD_i")
  {
    hide KeepCodeChars, Resolve, GoldText, GoldCode, IdentityKeys, DeskCode, Upper, Strip;
    var idx := [Entry("GOLD_I", "GOLD_i")];
    SuffixedGoldReads();
    GoldAliasesAreGold("GOLD");
    KeepCodeCharsAll("GOLD");
    SuffixKeepsGold("GOLD");
    ResolveIsSoundAndComplete("GOLD", idx);
    assert idx[0].name == "GOLD_i" && Lists(idx, "GOLD_i");
    assert Satisfies("GOLD_i", "GOLD");
  }

  // ---------------------------------------------------------------------
  // Which catalogue names are offered, and which one first, in plain terms

  // The desk codes that stand for gold and for silver, and their other spellings.
  predicate NamesGold(desk: string) {
    desk == "XAUUSD" || desk == "GOLD" || desk == "XAUUSDM" || Contains(desk, "XAU")
  }

  predicate NamesSilver(desk: string) {
    desk == "XAGUSD" || desk == "SILVER" || Contains(desk, "XAG")
  }

  predicate GoldSpelling(k: string) {
    k in ["XAUUSD", "XAUUSD_I", "GOLD", "XAUUSDM"]
  }

  predicate SilverSpelling(k: string) {
    k in ["XAGUSD", "XAGUSD_I", "SILVER"]
  }

  // The request itself, its desk code, or that code with the institutional suffix.
  predicate OwnSpelling(k: string, requested: string) {
    k == Key(requested) || k == Strip(DeskCode(requested)) || k == DeskCode(requested) + "_I"
  }

  lemma NamesByPart(requested: string)
    ensures var names, desk := IdentityNames(requested), DeskCode(requested);
            desk != "" ==> names == [Key(requested), desk, desk + "_I"]
                                    + (if NamesGold(desk) then ["XAUUSD", "XAUUSD_I", "GOLD", "XAUUSDM"] else [])
                                    + (if NamesSilver(desk) then ["XAGUSD", "XAGUSD_I", "SILVER"] else [])
  {
    hide Strip, Upper, Contains, DeskCode;
  }

  lemma AliasIsSpelled(requested: string, k: string)
    requires k in IdentityKeys(requested)
    ensures || OwnSpelling(k, requested)
            || (NamesGold(DeskCode(requested)) && GoldSpelling(k))
            || (NamesSilver(DeskCode(requested)) && SilverSpelling(k))
  {
    hide Strip, Upper, Contains, IdentityNames, DeskCode;
    var names := IdentityNames(requested);
    KeyStable(requested);
    DedupedMeans(names);
    NamesAreTrimmed(requested);
    NamesByPart(requested);
    var i :| 0 <= i < |names| && Strip(names[i]) == k;
    assert i >= 3 ==> Strip(names[i]) == names[i];
  }

  lemma SpellingIsAlias(requested: string, k: string)
    requires Key(requested) != "" && k != ""
    requires || OwnSpelling(k, requested)
             || (NamesGold(DeskCode(requested)) && GoldSpelling(k))
             || (NamesSilver(DeskCode(requested)) && SilverSpelling(k))
    ensures k in IdentityKeys(requested)
  {
    hide Strip, Upper, Contains, IdentityNames, DeskCode;
    var names, desk := IdentityNames(requested), DeskCode(requested);
    KeyStable(requested);
    DedupedMeans(names);
    NamesAreTrimmed(requested);
    NamesByPart(requested);
    var gold := if NamesGold(desk) then ["XAUUSD", "XAUUSD_I", "GOLD", "XAUUSDM"] else [];
    if OwnSpelling(k, requested) {
      assert Strip(names[0]) == Key(requested) && Strip(names[1]) == Strip(desk) && Strip(names[2]) == desk + "_I";
    } else if NamesGold(desk) && GoldSpelling(k) {
      var i :| 0 <= i < |gold| && gold[i] == k;
      assert Strip(names[3 + i]) == k;
    } else {
      var i :| 0 <= i < 3 && ["XAGUSD", "XAGUSD_I", "SILVER"][i] == k;
      assert Strip(names[3 + |gold| + i]) == k;
    }
  }

  // A trimmed name with the same desk code is an own spelling already, so looking
  // for desk mates adds nothing to the aliases.
  lemma DeskMateIsOwnSpelling(name: string, requested: string)
    requires Trimmed(name) && DeskCode(name) == DeskCode(requested)
    ensures OwnSpelling(Upper(name), requested)
  {
    hide StripLeft, StripRight;
    AlreadyTrimmed(name);
    DeskOfKey(name);
    if Key(name) == DeskCode(name) {
      assert Trimmed(Upper(name));
      AlreadyTrimmed(Upper(name));
    }
  }

  // A catalogue name is offered exactly when it is an own spelling of the request,
  // or a gold spelling for a gold desk, or a silver one for a silver desk.
  lemma OfferedIff(requested: string, idx: seq<Entry>, name: string)
    requires Catalogue(idx)
    ensures name in ExactNames(requested, idx) <==>
              && Lists(idx, name) && Key(requested) != ""
              && (|| OwnSpelling(Upper(name), requested)
                  || (NamesGold(DeskCode(requested)) && GoldSpelling(Upper(name)))
                  || (NamesSilver(DeskCode(requested)) && SilverSpelling(Upper(name))))
  {
    hide ExactNames, IdentityKeys, Strip, Upper, DeskCode, OwnSpelling, NamesGold, NamesSilver;
    ExactNamesAreTheSatisfyingNames(requested, idx);
    KeyStable(requested);
    if Lists(idx, name) {
      var i :| 0 <= i < |idx| && idx[i].name == name;
      BlankUpper(name);
      if Key(requested) != "" {
        if Upper(name) in IdentityKeys(requested) {
          AliasIsSpelled(requested, Upper(name));
        } else {
          AliasWhenSpelled(requested, Upper(name));
        }
      }
      if DeskCode(name) == DeskCode(requested) {
        DeskMateIsOwnSpelling(name, requested);
      }
    }
    NoAliasesForBlank(requested);
  }

  lemma AliasWhenSpelled(requested: string, k: string)
    requires Key(requested) != "" && k != "" && k !in IdentityKeys(requested)
    ensures !OwnSpelling(k, requested)
    ensures !(NamesGold(DeskCode(requested)) && GoldSpelling(k)) && !(NamesSilver(DeskCode(requested)) && SilverSpelling(k))
  {
    hide IdentityKeys, OwnSpelling, NamesGold, NamesSilver, GoldSpelling, SilverSpelling, DeskCode;
    if OwnSpelling(k, requested) || (NamesGold(DeskCode(requested)) && GoldSpelling(k))
       || (NamesSilver(DeskCode(requested)) && SilverSpelling(k)) {
      SpellingIsAlias(requested, k);
    }
  }

  lemma NoAliasesForBlank(requested: string)
    ensures Key(requested) == "" ==> IdentityKeys(requested) == []
  {
  }

  lemma ContainsCons(c: char, s: string, part: string)
    requires c !in part && part != ""
    ensures Contains([c] + s, part) <==> Contains(s, part)
  {
    var t := [c] + s;
    assert part[0] != c;
    if Contains(t, part) {
      var i :| 0 <= i <= |t| && StartsWith(t[i..], part);
      StartsAt(t, i, part);
      assert i > 0;
      StartsAt(s, i - 1, part);
    }
    if Contains(s, part) {
      var i :| 0 <= i <= |s| && StartsWith(s[i..], part);
      StartsAt(s, i, part);
      StartsAt(t, i + 1, part);
      assert StartsWith(t[i + 1..], part);
    }
  }

  // A family mark: neither white space nor a letter of the suffix.
  predicate Mark(part: string) {
    part != "" && forall c :: c in part ==> !IsSpace(c) && c != '_' && c != 'I'
  }

  lemma {:induction false} ContainsStripLeft(s: string, part: string)
    requires Mark(part)
    ensures Contains(StripLeft(s), part) <==> Contains(s, part)
  {
    hide Contains;
    if |s| > 0 && IsSpace(s[0]) {
      assert s == [s[0]] + s[1..];
      ContainsCons(s[0], s[1..], part);
      ContainsStripLeft(s[1..], part);
    }
  }

  lemma {:induction false} ContainsStripRight(s: string, part: string)
    requires Mark(part)
    ensures Contains(StripRight(s), part) <==> Contains(s, part)
  {
    hide Contains;
    if |s| > 0 && IsSpace(s[|s| - 1]) {
      assert s == s[..|s| - 1] + [s[|s| - 1]];
      ContainsSnoc(s[..|s| - 1], s[|s| - 1], part);
      ContainsStripRight(s[..|s| - 1], part);
    }
  }

  // Own spellings carry exactly the family marks of the desk code.
  lemma OwnSpellingKeepsMark(k: string, requested: string, part: string)
    requires OwnSpelling(k, requested) && Mark(part)
    ensures Contains(k, part) <==> Contains(DeskCode(requested), part)
  {
    hide Contains, StripLeft, StripRight, Upper, DeskCode;
    var desk := DeskCode(requested);
    DeskOfKey(requested);
    ContainsStripLeft(desk, part);
    ContainsStripRight(StripLeft(desk), part);
    assert desk + "_I" == desk + ['_'] + ['I'];
    ContainsSnoc(desk, '_', part);
    ContainsSnoc(desk + ['_'], 'I', part);
  }

  lemma GoldMarks(k: string)
    requires GoldSpelling(k)
    ensures !Contains(k, "XAG") && (k != "GOLD" ==> Contains(k, "XAU"))
  {
    if k == "GOLD" {
      LacksChar(k, 'X', "XAG");
    } else {
      LacksChar(k, 'G', "XAG");
      assert StartsWith(k[0..], "XAU");
    }
  }

  lemma SilverMarks(k: string)
    requires SilverSpelling(k)
    ensures !Contains(k, "XAU") && (k != "SILVER" ==> Contains(k, "XAG"))
  {
    if k == "SILVER" {
      LacksChar(k, 'X', "XAU");
    } else {
      assert StartsWith(k[0..], "XAG");
      NoGoldIn("XAGUSD", "XAU");
      if k == "XAGUSD_I" {
        assert k == "XAGUSD" + ['_'] + ['I'];
        ContainsSnoc("XAGUSD", '_', "XAU");
        ContainsSnoc("XAGUSD" + ['_'], 'I', "XAU");
      }
    }
  }

  lemma GoldWord(requested: string, k: string)
    requires OwnSpelling(k, requested) && NamesGold(DeskCode(requested))
    ensures k != "SILVER"
  {
    hide Contains, StripLeft, StripRight, Upper;
    var desk := DeskCode(requested);
    DeskOfKey(requested);
    assert desk == "GOLD" ==> (desk + "_I")[0] == 'G';
    if k == "SILVER" {
      SilverMarks(k);
      OwnSpellingKeepsMark(k, requested, "XAU");
      GoldMarks("XAUUSD");
      GoldMarks("XAUUSDM");
      AlreadyTrimmed("GOLD");
    }
  }

  lemma SilverWord(requested: string, k: string)
    requires OwnSpelling(k, requested) && NamesSilver(DeskCode(requested))
    ensures k != "GOLD"
  {
    hide Contains, StripLeft, StripRight, Upper;
    var desk := DeskCode(requested);
    DeskOfKey(requested);
    assert desk == "SILVER" ==> (desk + "_I")[0] == 'S';
    if k == "GOLD" {
      GoldMarks(k);
      OwnSpellingKeepsMark(k, requested, "XAG");
      SilverMarks("XAGUSD");
      AlreadyTrimmed("SILVER");
    }
  }

  // A gold request is offered every gold spelling the catalogue lists, and a
  // silver one only if its desk code also carries the mark of silver.
  lemma GoldIsNeverOfferedSilver(requested: string, idx: seq<Entry>, name: string)
    requires Catalogue(idx) && Lists(idx, name) && NamesGold(DeskCode(requested))
    ensures GoldSpelling(Upper(name)) ==> name in ExactNames(requested, idx)
    ensures SilverSpelling(Upper(name)) ==> (name in ExactNames(requested, idx) <==> Contains(DeskCode(requested), "XAG"))
  {
    hide ExactNames, Contains, StripLeft, StripRight, Upper, DeskCode, Catalogue, Lists;
    var desk := DeskCode(requested);
    OfferedIff(requested, idx, name);
    KeyStable(requested);
    EmptyContainsNothing("XAU");
    SilverMarks("SILVER");
    SilverMarks("XAGUSD");
    if SilverSpelling(Upper(name)) {
      SilverMarks(Upper(name));
      if OwnSpelling(Upper(name), requested) {
        OwnSpellingKeepsMark(Upper(name), requested, "XAG");
        GoldWord(requested, Upper(name));
      }
    }
  }

  // And the other way round.
  lemma SilverIsNeverOfferedGold(requested: string, idx: seq<Entry>, name: string)
    requires Catalogue(idx) && Lists(idx, name) && NamesSilver(DeskCode(requested))
    ensures SilverSpelling(Upper(name)) ==> name in ExactNames(requested, idx)
    ensures GoldSpelling(Upper(name)) ==> (name in ExactNames(requested, idx) <==> Contains(DeskCode(requested), "XAU"))
  {
    hide ExactNames, Contains, StripLeft, StripRight, Upper, DeskCode, Catalogue, Lists;
    var desk := DeskCode(requested);
    OfferedIff(requested, idx, name);
    KeyStable(requested);
    EmptyContainsNothing("XAG");
    GoldMarks("GOLD");
    GoldMarks("XAUUSD");
    GoldMarks("XAUUSDM");
    if GoldSpelling(Upper(name)) {
      GoldMarks(Upper(name));
      if OwnSpelling(Upper(name), requested) {
        OwnSpellingKeepsMark(Upper(name), requested, "XAU");
        SilverWord(requested, Upper(name));
      }
    }
  }

  // ---------------------------------------------------------------------
  // Preference

  lemma {:induction false} HitsSplit(front: seq<string>, last: string, idx: seq<Entry>)
    ensures Hits(front + [last], idx) == Hits(front, idx) + if Get(idx, last).Some? then [Get(idx, last).value] else []
  {
    assert (front + [last])[..|front|] == front;
  }

  // Of a list of spellings, the first one in the catalogue is the first hit.
  lemma {:induction false} FirstListedHits(names: seq<string>, idx: seq<Entry>, i: nat)
    requires i < |names| && Strip(names[i]) != "" && Get(idx, Strip(names[i])).Some?
    requires forall j :: 0 <= j < i ==> Get(idx, Strip(names[j])).None?
    ensures Hits(Deduped(names), idx) != [] && Hits(Deduped(names), idx)[0] == Get(idx, Strip(names[i])).value
  {
    hide Strip, Get, Hits;
    var front, last := names[..|names| - 1], names[|names| - 1];
    assert names == front + [last];
    if Strip(last) != "" && Strip(last) !in Deduped(front) {
      HitsSplit(Deduped(front), Strip(last), idx);
    }
    if i < |front| {
      FirstListedHits(front, idx, i);
    } else {
      NoneListed(front, idx);
      DedupedMeans(front);
    }
  }

  lemma {:induction false} NoneListed(names: seq<string>, idx: seq<Entry>)
    requires forall j :: 0 <= j < |names| ==> Get(idx, Strip(names[j])).None?
    ensures Hits(Deduped(names), idx) == []
  {
    hide Strip, Get;
    if names != [] {
      var front, last := names[..|names| - 1], names[|names| - 1];
      NoneListed(front, idx);
      HitsSplit(Deduped(front), Strip(last), idx);
    }
  }

  lemma ResolvePrefers(requested: string, idx: seq<Entry>, i: nat)
    requires Catalogue(idx) && Key(requested) != "" && i < |IdentityNames(requested)|
    requires var names := IdentityNames(requested);
             && Strip(names[i]) != "" && Get(idx, Strip(names[i])).Some?
             && forall j :: 0 <= j < i ==> Get(idx, Strip(names[j])).None?
    ensures Resolve(requested, idx) == Get(idx, Strip(IdentityNames(requested)[i]))
  {
    hide Strip, Get, Hits, Deduped, GoldDesk, SilverDesk;
    var names := IdentityNames(requested);
    KeyStable(requested);
    NamesAreTrimmed(requested);
    FirstListedHits(names, idx, i);
    EmptyIndex(Strip(names[i]));
    assert Strip(names[0]) == Key(requested);
  }

  lemma EmptyIndex(key: string)
    ensures Get([], key).None?
  {
  }

  // The request's own spellings are preferred: as written, then without the
  // suffix, then with it.
  lemma OwnSpellingsFirst(requested: string, idx: seq<Entry>)
    requires Catalogue(idx) && Key(requested) != ""
    ensures var own := [Key(requested), Strip(DeskCode(requested)), DeskCode(requested) + "_I"];
            forall i :: 0 <= i < 3 && Get(idx, own[i]).Some? && (forall j :: 0 <= j < i ==> Get(idx, own[j]).None?) ==>
              Resolve(requested, idx) == Get(idx, own[i])
  {
    hide StripLeft, StripRight, Get, Resolve, GoldDesk, SilverDesk, Upper;
    KeyStable(requested);
    NamesAreTrimmed(requested);
    var own, names := [Key(requested), Strip(DeskCode(requested)), DeskCode(requested) + "_I"], IdentityNames(requested);
    assert Strip(names[0]) == own[0] && Strip(names[1]) == own[1] && Strip(names[2]) == own[2];
    forall i | 0 <= i < 3 && Get(idx, own[i]).Some? && (forall j :: 0 <= j < i ==> Get(idx, own[j]).None?)
      ensures Resolve(requested, idx) == Get(idx, own[i])
    {
      NoBlankEntry(idx, own[i]);
      ResolvePrefers(requested, idx, i);
    }
  }

  lemma NoBlankEntry(idx: seq<Entry>, key: string)
    requires Catalogue(idx) && Get(idx, key).Some?
    ensures key != ""
  {
    GetMeans(idx, key);
  }

  // Failing those, a gold request resolves to the first gold spelling listed, in
  // the order XAUUSD, XAUUSD_I, GOLD, XAUUSDM.
  lemma GoldAliasResolves(requested: string, idx: seq<Entry>, i: nat)
    requires Catalogue(idx) && NamesGold(DeskCode(requested)) && i < 4
    requires forall k :: OwnSpelling(k, requested) ==> Get(idx, k).None?
    requires var gold := ["XAUUSD", "XAUUSD_I", "GOLD", "XAUUSDM"];
             Get(idx, gold[i]).Some? && forall j :: 0 <= j < i ==> Get(idx, gold[j]).None?
    ensures Resolve(requested, idx) == Get(idx, ["XAUUSD", "XAUUSD_I", "GOLD", "XAUUSDM"][i])
  {
    hide StripLeft, StripRight, Get, Resolve, SilverDesk, Upper, Contains;
    KeyStable(requested);
    EmptyContainsNothing("XAU");
    NamesAreTrimmed(requested);
    var gold, names := ["XAUUSD", "XAUUSD_I", "GOLD", "XAUUSDM"], IdentityNames(requested);
    NoBlankEntry(idx, gold[i]);
    assert OwnSpelling(Strip(names[0]), requested) && OwnSpelling(Strip(names[1]), requested) && OwnSpelling(Strip(names[2]), requested);
    assert forall j :: 0 <= j < 4 ==> names[3 + j] == gold[j];
    ResolvePrefers(requested, idx, 3 + i);
  }

  // A silver request that is no gold one likewise: XAGUSD, XAGUSD_I, SILVER.
  lemma SilverAliasResolves(requested: string, idx: seq<Entry>, i: nat)
    requires Catalogue(idx) && NamesSilver(DeskCode(requested)) && !NamesGold(DeskCode(requested)) && i < 3
    requires forall k :: OwnSpelling(k, requested) ==> Get(idx, k).None?
    requires var silver := ["XAGUSD", "XAGUSD_I", "SILVER"];
             Get(idx, silver[i]).Some? && forall j :: 0 <= j < i ==> Get(idx, silver[j]).None?
    ensures Resolve(requested, idx) == Get(idx, ["XAGUSD", "XAGUSD_I", "SILVER"][i])
  {
    hide StripLeft, StripRight, Get, Resolve, Upper, Contains;
    KeyStable(requested);
    EmptyContainsNothing("XAG");
    NamesAreTrimmed(requested);
    var silver, names := ["XAGUSD", "XAGUSD_I", "SILVER"], IdentityNames(requested);
    NoBlankEntry(idx, silver[i]);
    assert OwnSpelling(Strip(names[0]), requested) && OwnSpelling(Strip(names[1]), requested) && OwnSpelling(Strip(names[2]), requested);
    assert forall j :: 0 <= j < 3 ==> names[3 + j] == silver[j];
    ResolvePrefers(requested, idx, 3 + i);
  }
}
