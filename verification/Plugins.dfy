/** Community plugins: dotted versions, compatibility with the host's API version, and the registry of installed
    plugins with its file. */
module Plugins {
  import opened Collections
  import opened Persistence
  import opened Decimals

  const U32_LIMIT: nat := 0x1_0000_0000

  /** The pieces between separators; there is always at least one. */
  function Split(s: string, separator: char): (pieces: seq<string>)
    ensures |pieces| >= 1
  {
    if s == [] then [""] else Prepended(s[0], separator, Split(s[1..], separator))
  }

  /** The pieces with one character more in front. */
  function Prepended(c: char, separator: char, pieces: seq<string>): (r: seq<string>)
    requires |pieces| >= 1
    ensures |r| >= 1
  {
    if c == separator then [""] + pieces else [[c] + pieces[0]] + pieces[1..]
  }

  function WithoutPlus(s: string): string {
    if |s| > 1 && s[0] == '+' then s[1..] else s
  }

  predicate AllDigits(s: string) {
    s != [] && forall i :: 0 <= i < |s| ==> IsDigit(s[i])
  }

  /** A 32-bit unsigned number: an optional plus sign and at least one digit, small enough. */
  function ParseU32(s: string): Option<nat> {
    var digits := WithoutPlus(s);
    if AllDigits(digits) && DigitsValue(digits) < U32_LIMIT then Some(DigitsValue(digits)) else None
  }

  function ParsedPieces(pieces: seq<string>): seq<nat> {
    if pieces == [] then []
    else match ParseU32(pieces[0])
      case None => ParsedPieces(pieces[1..])
      case Some(v) => [v] + ParsedPieces(pieces[1..])
  }

  /** The numbers of a version; pieces that are not numbers are skipped. */
  function Components(version: string): seq<nat> {
    ParsedPieces(Split(version, '.'))
  }

  // ---- Versions written out and read back ----

  function Render(components: seq<nat>): string {
    if components == [] then []
    else if |components| == 1 then Decimal(components[0])
    else Decimal(components[0]) + "." + Render(components[1..])
  }

  /** Numbers parse up to 32 bits, and greater ones do not. */
  lemma {:induction false} DecimalParses(n: nat)
    ensures ParseU32(Decimal(n)) == if n <= 4_294_967_295 then Some(n) else None
  {
    DecimalValue(n);
    assert IsDigit(Decimal(n)[0]);
  }

  lemma {:induction false} DigitsHaveNoDot(piece: string)
    requires AllDigits(piece)
    ensures '.' !in piece
  {
  }

  lemma {:induction false} OneComponent(n: nat)
    requires n <= 4_294_967_295
    ensures Components(Decimal(n)) == [n]
  {
    var piece := Decimal(n);
    DigitsHaveNoDot(piece);
    SplitsToItself(piece);
    DecimalParses(n);
    assert ParsedPieces([piece]) == [n] + ParsedPieces([piece][1..]);
    assert ParsedPieces([]) == [];
  }

  /** Every non-empty list of 32-bit numbers is the component list of its dotted version string. */
  lemma {:induction false} VersionRoundTrip(components: seq<nat>)
    requires components != [] && forall i :: 0 <= i < |components| ==> components[i] <= 4_294_967_295
    ensures Components(Render(components)) == components
  {
    OneComponent(components[0]);
    if |components| > 1 {
      VersionRoundTrip(components[1..]);
      ComponentsByPieces(Decimal(components[0]), Render(components[1..]));
    }
  }

  // ---- The order ----

  /** Strict lexicographic order: at the first difference the smaller number wins, and a proper prefix is less. */
  predicate LexLess(a: seq<nat>, b: seq<nat>) {
    exists k :: 0 <= k <= |a| && LessAt(a, b, k)
  }

  predicate AgreeUpto(a: seq<nat>, b: seq<nat>, n: nat) {
    n <= |a| && n <= |b| && forall i :: 0 <= i < n ==> a[i] == b[i]
  }

  predicate LessAt(a: seq<nat>, b: seq<nat>, k: nat) {
    && k <= |a| && k < |b| && AgreeUpto(a, b, k)
    && (k == |a| || a[k] < b[k])
  }

  method VersionLt(a: string, b: string) returns (less: bool)
    ensures less <==> LexLess(Components(a), Components(b))
  {
    less := PartsLt(Components(a), Components(b));
  }

  /** The comparison of the parsed parts. */
  method PartsLt(a: seq<nat>, b: seq<nat>) returns (less: bool)
    ensures less <==> LexLess(a, b)
  {
    var shorter := if |a| <= |b| then |a| else |b|;
    for i := 0 to shorter
      invariant AgreeUpto(a, b, i)
    {
      if a[i] != b[i] {
        DecidedAt(a, b, i);
        return a[i] < b[i];
      }
    }
    PrefixDecided(a, b, shorter);
    return |a| < |b|;
  }

  lemma {:induction false} DecidedAt(a: seq<nat>, b: seq<nat>, i: nat)
    requires i < |a| && i < |b| && AgreeUpto(a, b, i) && a[i] != b[i]
    ensures LexLess(a, b) <==> a[i] < b[i]
  {
    if a[i] < b[i] {
      assert LessAt(a, b, i);
    }
  }

  lemma {:induction false} PrefixDecided(a: seq<nat>, b: seq<nat>, n: nat)
    requires AgreeUpto(a, b, n) && (n == |a| || n == |b|)
    ensures LexLess(a, b) <==> |a| < |b|
  {
    if |a| < |b| {
      assert LessAt(a, b, n);
    }
  }

  /** How far two lists agree. */
  function Agreement(a: seq<nat>, b: seq<nat>): (n: nat)
    ensures AgreeUpto(a, b, n)
    ensures n == |a| || n == |b| || a[n] != b[n]
  {
    if a == [] || b == [] || a[0] != b[0] then 0 else 1 + Agreement(a[1..], b[1..])
  }

  lemma {:induction false} LexLessByAgreement(a: seq<nat>, b: seq<nat>)
    ensures
      var n := Agreement(a, b);
      LexLess(a, b) <==> (if n < |a| && n < |b| then a[n] < b[n] else |a| < |b|)
  {
    var n := Agreement(a, b);
    if n < |a| && n < |b| {
      DecidedAt(a, b, n);
    } else {
      PrefixDecided(a, b, n);
    }
  }

  lemma {:induction false} AgreementSymmetric(a: seq<nat>, b: seq<nat>)
    ensures Agreement(a, b) == Agreement(b, a)
  {
  }

  /** Exactly one of less, greater and equal holds, so the order is total on component lists. */
  lemma {:induction false} LexTrichotomy(a: seq<nat>, b: seq<nat>)
    ensures !(LexLess(a, b) && LexLess(b, a))
    ensures !LexLess(a, b) && !LexLess(b, a) <==> a == b
  {
    LexLessByAgreement(a, b);
    LexLessByAgreement(b, a);
    AgreementSymmetric(a, b);
    var n := Agreement(a, b);
    if n == |a| == |b| {
      assert a == b;
    }
  }

  lemma {:induction false} LexTransitive(a: seq<nat>, b: seq<nat>, c: seq<nat>)
    requires LexLess(a, b) && LexLess(b, c)
    ensures LexLess(a, c)
  {
    var i :| 0 <= i <= |a| && LessAt(a, b, i);
    var j :| 0 <= j <= |b| && LessAt(b, c, j);
    var k := if i <= j then i else j;
    assert LessAt(a, c, k);
  }

  /** The first parts decide, and if they are equal the rest; a list that runs out first is less. */
  lemma {:induction false} LexLessByHeads(a: seq<nat>, b: seq<nat>)
    ensures LexLess(a, b) <==>
            b != [] && (a == [] || a[0] < b[0] || (a[0] == b[0] && LexLess(a[1..], b[1..])))
  {
    LexLessByAgreement(a, b);
    if a != [] && b != [] {
      LexLessByAgreement(a[1..], b[1..]);
    }
  }

  predicate AtMost(a: seq<nat>, b: seq<nat>) {
    LexLess(a, b) || a == b
  }

  // ---- Compatibility ----

  datatype CompatibilityInfo = CompatibilityInfo(apiVersion: string, minApiVersion: string)

  datatype Manifest = Manifest(name: string, version: string, compatibility: Option<CompatibilityInfo>)

  predicate IsCompatible(m: Manifest, current: string) {
    match m.compatibility
    case None => true
    case Some(c) =>
      && !LexLess(Components(current), Components(c.minApiVersion))
      && !LexLess(Components(c.apiVersion), Components(current))
  }

  /** Accepted exactly when the host's version lies between the two bounds, both included. */
  lemma {:induction false} CompatibleIffInInterval(m: Manifest, current: string)
    requires m.compatibility.Some?
    ensures IsCompatible(m, current) <==>
            && AtMost(Components(m.compatibility.value.minApiVersion), Components(current))
            && AtMost(Components(current), Components(m.compatibility.value.apiVersion))
  {
    LexTrichotomy(Components(m.compatibility.value.minApiVersion), Components(current));
    LexTrichotomy(Components(current), Components(m.compatibility.value.apiVersion));
  }

  /** A manifest is compatible with some version exactly when its interval is not empty. */
  lemma {:induction false} SomeVersionIffNonEmpty(m: Manifest)
    requires m.compatibility.Some?
    ensures (exists current :: IsCompatible(m, current)) <==>
            !LexLess(Components(m.compatibility.value.apiVersion), Components(m.compatibility.value.minApiVersion))
  {
    var low, high := m.compatibility.value.minApiVersion, m.compatibility.value.apiVersion;
    if current :| IsCompatible(m, current) {
      CompatibleIffInInterval(m, current);
      LexTrichotomy(Components(low), Components(high));
      if LexLess(Components(low), Components(current)) && LexLess(Components(current), Components(high)) {
        LexTransitive(Components(low), Components(current), Components(high));
      }
    } else if !LexLess(Components(high), Components(low)) {
      LexTrichotomy(Components(low), Components(low));
      assert IsCompatible(m, low);
    }
  }

  // ---- The registry ----

  const CURRENT_API_VERSION := "0.1.0"

  datatype Installed = Installed(manifest: Manifest, installedAt: string)

  function NameOf(): Installed -> string {
    (e: Installed) => e.manifest.name
  }

  function FindManifest(index: seq<Manifest>, name: string): (found: Option<Manifest>)
    ensures found.Some? ==> found.value in index && found.value.name == name
    ensures found.None? <==> forall m :: m in index ==> m.name != name
  {
    if index == [] then None
    else if index[0].name == name then Some(index[0])
    else FindManifest(index[1..], name)
  }

  // ---- The list of what can be installed ----

  /** Names are compared character by character, as versions are component by component. */
  function Codes(name: string): seq<nat> {
    seq(|name|, i requires 0 <= i < |name| => name[i] as nat)
  }

  predicate NameAtMost(a: string, b: string) {
    !LexLess(Codes(b), Codes(a))
  }

  predicate InOrder(ms: seq<Manifest>) {
    forall i, j :: 0 <= i < j < |ms| ==> NameAtMost(ms[i].name, ms[j].name)
  }

  /** Name `a` is `b` or comes before it in a dictionary. */
  predicate InDictionary(a: string, b: string) {
    a == "" || (b != "" && (a[0] < b[0] || (a[0] == b[0] && InDictionary(a[1..], b[1..]))))
  }

  predicate SortedByName(ms: seq<Manifest>) {
    forall i, j :: 0 <= i < j < |ms| ==> InDictionary(ms[i].name, ms[j].name)
  }

  lemma {:induction false} DictionaryOrder(a: string, b: string)
    ensures NameAtMost(a, b) <==> InDictionary(a, b)
  {
    LexLessByHeads(Codes(b), Codes(a));
    if a != "" && b != "" {
      assert Codes(a)[1..] == Codes(a[1..]) && Codes(b)[1..] == Codes(b[1..]);
      DictionaryOrder(a[1..], b[1..]);
    }
  }

  lemma {:induction false} OrderIsDictionaryOrder(ms: seq<Manifest>)
    requires InOrder(ms)
    ensures SortedByName(ms)
  {
    forall i, j | 0 <= i < j < |ms|
      ensures InDictionary(ms[i].name, ms[j].name)
    {
      DictionaryOrder(ms[i].name, ms[j].name);
    }
  }

  function Named(name: string): Manifest -> bool {
    (m: Manifest) => m.name == name
  }

  function NotInstalled(installed: map<string, Installed>): Manifest -> bool {
    (m: Manifest) => m.name !in installed
  }

  /** Before everything of a greater name, and after everything else. */
  function InsertByName(ms: seq<Manifest>, m: Manifest): seq<Manifest> {
    if ms == [] || NameAtMost(ms[|ms| - 1].name, m.name) then ms + [m]
    else InsertByName(ms[..|ms| - 1], m) + [ms[|ms| - 1]]
  }

  function SortByName(ms: seq<Manifest>): seq<Manifest> {
    if ms == [] then [] else InsertByName(SortByName(ms[..|ms| - 1]), ms[|ms| - 1])
  }

  lemma {:induction false} NameOrderIsTotal(a: string, b: string, c: string)
    ensures NameAtMost(a, b) || NameAtMost(b, a)
    ensures NameAtMost(a, b) && NameAtMost(b, c) ==> NameAtMost(a, c)
    ensures NameAtMost(a, a)
  {
    LexTrichotomy(Codes(a), Codes(b));
    LexTrichotomy(Codes(b), Codes(c));
    LexTrichotomy(Codes(a), Codes(a));
    if NameAtMost(a, b) && NameAtMost(b, c) && LexLess(Codes(c), Codes(a)) {
      if LexLess(Codes(a), Codes(b)) {
        LexTransitive(Codes(c), Codes(a), Codes(b));
      }
    }
  }

  lemma {:induction false} AppendKeepsSorted(ms: seq<Manifest>, m: Manifest)
    requires InOrder(ms) && forall x :: x in ms ==> NameAtMost(x.name, m.name)
    ensures InOrder(ms + [m])
  {
  }

  lemma {:induction false} InsertKeepsSorted(ms: seq<Manifest>, m: Manifest)
    requires InOrder(ms)
    ensures InOrder(InsertByName(ms, m))
    ensures forall x :: x in InsertByName(ms, m) <==> x in ms || x == m
  {
    if ms != [] {
      var rest, last := ms[..|ms| - 1], ms[|ms| - 1];
      assert forall x :: x in ms <==> x in rest || x == last;
      assert forall x :: x in rest ==> NameAtMost(x.name, last.name);
      NameOrderIsTotal(last.name, m.name, m.name);
      if NameAtMost(last.name, m.name) {
        forall x | x in ms
          ensures NameAtMost(x.name, m.name)
        {
          NameOrderIsTotal(x.name, last.name, m.name);
        }
        AppendKeepsSorted(ms, m);
      } else {
        InsertKeepsSorted(rest, m);
        AppendKeepsSorted(InsertByName(rest, m), last);
      }
    }
  }

  lemma {:induction false} SortIsSorted(ms: seq<Manifest>)
    ensures InOrder(SortByName(ms))
  {
    if ms != [] {
      SortIsSorted(ms[..|ms| - 1]);
      InsertKeepsSorted(SortByName(ms[..|ms| - 1]), ms[|ms| - 1]);
    }
  }

  lemma {:induction false} InsertIsStable(ms: seq<Manifest>, m: Manifest, name: string)
    ensures Filter(InsertByName(ms, m), Named(name)) == Filter(ms, Named(name)) + if m.name == name then [m] else []
  {
    if ms == [] || NameAtMost(ms[|ms| - 1].name, m.name) {
      FilterConcat(ms, [m], Named(name));
    } else {
      var rest, last := ms[..|ms| - 1], ms[|ms| - 1];
      assert ms == rest + [last];
      InsertIsStable(rest, m, name);
      FilterConcat(InsertByName(rest, m), [last], Named(name));
      FilterConcat(rest, [last], Named(name));
      NameOrderIsTotal(m.name, m.name, m.name);
    }
  }

  lemma {:induction false} SortKeepsNamed(ms: seq<Manifest>, name: string)
    ensures Filter(SortByName(ms), Named(name)) == Filter(ms, Named(name))
  {
    if ms != [] {
      SortKeepsNamed(ms[..|ms| - 1], name);
      InsertIsStable(SortByName(ms[..|ms| - 1]), ms[|ms| - 1], name);
      FilterLast(ms, Named(name));
    }
  }

  lemma {:induction false} SortIsStable(ms: seq<Manifest>)
    ensures forall name :: Filter(SortByName(ms), Named(name)) == Filter(ms, Named(name))
  {
    forall name
      ensures Filter(SortByName(ms), Named(name)) == Filter(ms, Named(name))
    {
      SortKeepsNamed(ms, name);
    }
  }

  lemma {:induction false} NamedNotInstalled(ms: seq<Manifest>, installed: map<string, Installed>)
    ensures forall name :: Filter(Filter(ms, NotInstalled(installed)), Named(name))
                           == if name in installed then [] else Filter(ms, Named(name))
  {
    if ms != [] {
      NamedNotInstalled(ms[1..], installed);
    }
  }

  // ---- The registry itself ----

  datatype InstallResult = Ok(manifest: Manifest) | AlreadyInstalled | NotFound | Incompatible

  datatype State = State(index: seq<Manifest>, installed: map<string, Installed>, disk: Disk<Installed>)

  function InstallOutcome(s: State, name: string): InstallResult {
    if name in s.installed then AlreadyInstalled
    else match FindManifest(s.index, name)
      case None => NotFound
      case Some(m) => if IsCompatible(m, CURRENT_API_VERSION) then Ok(m) else Incompatible
  }

  function MapAfterInstall(s: State, name: string, now: string): map<string, Installed> {
    match InstallOutcome(s, name)
    case Ok(m) => s.installed[name := Installed(m, now)]
    case _ => s.installed
  }

  class Registry {
    var index: seq<Manifest>
    var installed: map<string, Installed>
    var disk: Disk<Installed>

    function View(): State
      reads this
    {
      State(index, installed, disk)
    }

    constructor (index: seq<Manifest>, disk: Disk<Installed>)
      ensures View() == State(index, Loaded(disk, NameOf()), disk)
    {
      this.index := index;
      this.installed := Loaded(disk, NameOf());
      this.disk := disk;
    }

    /** A failed write is ignored. */
    method SaveInstalled(order: seq<string>, outcome: Outcome<Installed>)
      requires IsOrder(order, installed)
      modifies this`disk
      ensures disk == Write(ValuesOf(order, installed), outcome)
    {
      var entries := ValuesOf(order, installed);
      disk := Write(entries, outcome);
    }

    method Install(name: string, now: string, order: seq<string>, outcome: Outcome<Installed>)
      returns (r: InstallResult)
      requires IsOrder(order, MapAfterInstall(View(), name, now))
      modifies this`installed, this`disk
      ensures r == InstallOutcome(old(View()), name)
      ensures View() == AfterInstall(old(View()), name, now, order, outcome)
    {
      if name in installed {
        return AlreadyInstalled;
      }
      var manifest := FindManifest(index, name);
      if manifest.None? {
        return NotFound;
      }
      if !IsCompatible(manifest.value, CURRENT_API_VERSION) {
        return Incompatible;
      }
      installed := installed[name := Installed(manifest.value, now)];
      SaveInstalled(order, outcome);
      r := Ok(manifest.value);
    }

    method Remove(name: string, order: seq<string>, outcome: Outcome<Installed>) returns (removed: bool)
      requires IsOrder(order, installed - {name})
      modifies this`installed, this`disk
      ensures removed <==> name in old(installed)
      ensures View() == AfterRemove(old(View()), name, order, outcome)
    {
      removed := name in installed;
      if removed {
        installed := installed - {name};
        SaveInstalled(order, outcome);
      }
    }

    /** An empty remote index is refused. */
    method RefreshIndex(fetched: Option<seq<Manifest>>) returns (ok: bool)
      modifies this`index
      ensures ok <==> fetched.Some? && fetched.value != []
      ensures View() == AfterRefresh(old(View()), fetched)
    {
      ok := fetched.Some? && fetched.value != [];
      if ok {
        index := fetched.value;
      }
    }

    /** The manifests not installed, sorted by name; those that share a name stay in the order of the index. */
    function ListAvailable(): (available: seq<Manifest>)
      reads this
      ensures SortedByName(available)
      ensures forall name :: Filter(available, Named(name))
                             == if name in installed then [] else Filter(index, Named(name))
    {
      var listed := Filter(index, NotInstalled(installed));
      SortIsSorted(listed);
      OrderIsDictionaryOrder(SortByName(listed));
      SortIsStable(listed);
      NamedNotInstalled(index, installed);
      SortByName(listed)
    }
  }

  function AfterInstall(s: State, name: string, now: string, order: seq<string>, outcome: Outcome<Installed>): State
    requires IsOrder(order, MapAfterInstall(s, name, now))
  {
    if InstallOutcome(s, name).Ok? then
      s.(installed := MapAfterInstall(s, name, now),
         disk := Write(ValuesOf(order, MapAfterInstall(s, name, now)), outcome))
    else s
  }

  function AfterRemove(s: State, name: string, order: seq<string>, outcome: Outcome<Installed>): State
    requires IsOrder(order, s.installed - {name})
  {
    if name in s.installed then
      s.(installed := s.installed - {name},
         disk := Write(ValuesOf(order, s.installed - {name}), outcome))
    else s
  }

  function AfterRefresh(s: State, fetched: Option<seq<Manifest>>): State {
    if fetched.Some? && fetched.value != [] then s.(index := fetched.value) else s
  }

  datatype Call =
    | Install(name: string, now: string, order: seq<string>)
    | Remove(name: string, order: seq<string>)
    | Refresh(fetched: Option<seq<Manifest>>)
    | Reopen(builtin: seq<Manifest>)

  /** The environment enumerates the map somehow. */
  predicate Allowed(s: State, c: Call) {
    match c
    case Install(name, now, order) => IsOrder(order, MapAfterInstall(s, name, now))
    case Remove(name, order) => IsOrder(order, s.installed - {name})
    case _ => true
  }

  /** Every write succeeds. */
  function Step(s: State, c: Call): State
    requires Allowed(s, c)
  {
    match c
    case Install(name, now, order) => AfterInstall(s, name, now, order, Written)
    case Remove(name, order) => AfterRemove(s, name, order, Written)
    case Refresh(fetched) => AfterRefresh(s, fetched)
    case Reopen(builtin) => State(builtin, Loaded(s.disk, NameOf()), s.disk)
  }

  ghost predicate Run(states: seq<State>, calls: seq<Call>) {
    && |states| == |calls| + 1
    && states[0].installed == map[] && states[0].disk == Missing
    && forall i :: 0 <= i < |calls| ==> Allowed(states[i], calls[i]) && states[i + 1] == Step(states[i], calls[i])
  }

  /** Each entry sits under its manifest's name, and each was compatible. */
  ghost predicate Proper(s: State) {
    && KeyedBy(s.installed, NameOf())
    && forall name :: name in s.installed ==> IsCompatible(s.installed[name].manifest, CURRENT_API_VERSION)
  }

  /** Besides, the registry is what its file says. */
  ghost predicate Consistent(s: State) {
    Proper(s) && Loaded(s.disk, NameOf()) == s.installed
  }

  lemma {:induction false} StepKeepsConsistent(s: State, c: Call)
    requires Consistent(s) && Allowed(s, c)
    ensures Consistent(Step(s, c))
  {
    match c
    case Install(name, now, order) => RoundTripIff(order, MapAfterInstall(s, name, now), NameOf());
    case Remove(name, order) => RoundTripIff(order, s.installed - {name}, NameOf());
    case _ =>
  }

  /** However plugins are installed and removed, reloading gives the registry back, and only compatible plugins
      are ever in it. */
  lemma {:induction false} RegistryIsConsistent(states: seq<State>, calls: seq<Call>, n: nat)
    requires Run(states, calls) && n <= |calls|
    ensures Consistent(states[n])
  {
    if n > 0 {
      RegistryIsConsistent(states, calls, n - 1);
      assert states[n] == Step(states[n - 1], calls[n - 1]);
      StepKeepsConsistent(states[n - 1], calls[n - 1]);
    }
  }

  lemma {:induction false} LostWrite(installed: map<string, Installed>)
    ensures exists left :: Loaded(left, NameOf()) != installed
  {
    if installed == map[] {
      var entry := Installed(Manifest("", "", None), "");
      assert [entry][..0] == [];
      assert "" in Loaded(Contents([entry]), NameOf());
    } else {
      assert Loaded(Missing, NameOf()) != installed;
    }
  }

  /** An installation whose write may fail in any way is sure to keep registry and file together exactly when it is
      refused, and a removal exactly when there is nothing to remove: the error is ignored and nothing is undone. */
  lemma {:induction false} FailedWriteConsistentIff(s: State, name: string, now: string, order: seq<string>,
                                                    rest: seq<string>)
    requires Consistent(s)
    requires IsOrder(order, MapAfterInstall(s, name, now)) && IsOrder(rest, s.installed - {name})
    ensures (forall left :: Consistent(AfterInstall(s, name, now, order, Broken(left))))
            <==> !InstallOutcome(s, name).Ok?
    ensures (forall left :: Consistent(AfterRemove(s, name, rest, Broken(left)))) <==> name !in s.installed
  {
    if InstallOutcome(s, name).Ok? {
      LostWrite(MapAfterInstall(s, name, now));
      var left :| Loaded(left, NameOf()) != MapAfterInstall(s, name, now);
      assert !Consistent(AfterInstall(s, name, now, order, Broken(left)));
    }
    if name in s.installed {
      LostWrite(s.installed - {name});
      var left :| Loaded(left, NameOf()) != s.installed - {name};
      assert !Consistent(AfterRemove(s, name, rest, Broken(left)));
    }
  }

  /** The next write that succeeds brings them together again, however many have failed before. */
  lemma {:induction false} NextWriteRepairs(s: State, name: string, now: string, order: seq<string>, rest: seq<string>)
    requires Proper(s)
    requires IsOrder(order, MapAfterInstall(s, name, now)) && IsOrder(rest, s.installed - {name})
    ensures InstallOutcome(s, name).Ok? ==> Consistent(AfterInstall(s, name, now, order, Written))
    ensures name in s.installed ==> Consistent(AfterRemove(s, name, rest, Written))
  {
    RoundTripIff(order, MapAfterInstall(s, name, now), NameOf());
    RoundTripIff(rest, s.installed - {name}, NameOf());
  }

  // ---- What installing and removing do ----

  /** What is found is the first manifest of that name. */
  lemma {:induction false} FoundIsFirst(index: seq<Manifest>, name: string, i: nat)
    requires i < |index| && index[i].name == name && forall k :: 0 <= k < i ==> index[k].name != name
    ensures FindManifest(index, name) == Some(index[i])
  {
    if i > 0 {
      FoundIsFirst(index[1..], name, i - 1);
    }
  }

  /** The host's version lies between the bounds, if there are any. */
  predicate Fits(m: Manifest) {
    match m.compatibility
    case None => true
    case Some(c) =>
      AtMost(Components(c.minApiVersion), Components("0.1.0")) && AtMost(Components("0.1.0"), Components(c.apiVersion))
  }

  /** A plugin is installed exactly when it is not installed yet, listed, and its first manifest fits the host; then it
      is in the registry with that manifest, and all others are as they were. */
  lemma {:induction false} InstallEffect(s: State, name: string, now: string, order: seq<string>,
                                         outcome: Outcome<Installed>)
    requires IsOrder(order, MapAfterInstall(s, name, now))
    ensures
      var after := AfterInstall(s, name, now, order, outcome);
      && (InstallOutcome(s, name) == AlreadyInstalled <==> name in s.installed)
      && (InstallOutcome(s, name) == NotFound <==>
          name !in s.installed && forall m :: m in s.index ==> m.name != name)
      && (forall m :: InstallOutcome(s, name) == Ok(m) <==>
            name !in s.installed && FindManifest(s.index, name) == Some(m) && Fits(m))
      && (match InstallOutcome(s, name)
          case Ok(m) =>
            && after.installed == s.installed[name := Installed(m, now)]
            && after.disk == Write(ValuesOf(order, after.installed), outcome)
          case _ => after == s)
      && after.index == s.index
  {
    if FindManifest(s.index, name).Some? && FindManifest(s.index, name).value.compatibility.Some? {
      CompatibleIffInInterval(FindManifest(s.index, name).value, CURRENT_API_VERSION);
    }
  }

  /** A removal takes exactly that plugin out, and an unknown name changes nothing, not even the file. */
  lemma {:induction false} RemoveEffect(s: State, name: string, order: seq<string>, outcome: Outcome<Installed>)
    requires IsOrder(order, s.installed - {name})
    ensures
      var after := AfterRemove(s, name, order, outcome);
      && after.installed == (map other | other in s.installed && other != name :: s.installed[other])
      && (name !in s.installed ==> after == s)
      && (name in s.installed ==> after.disk == Write(ValuesOf(order, after.installed), outcome))
      && after.index == s.index
  {
    assert s.installed - {name} == map other | other in s.installed && other != name :: s.installed[other];
  }

  /** Only a fetched and non-empty index replaces the old one, and nothing else changes. */
  lemma {:induction false} RefreshEffect(s: State, fetched: Option<seq<Manifest>>)
    ensures AfterRefresh(s, fetched).installed == s.installed && AfterRefresh(s, fetched).disk == s.disk
    ensures AfterRefresh(s, fetched).index
            == match fetched
               case None => s.index
               case Some(index) => if |index| == 0 then s.index else index
  {
  }

  // ---- Versions that are not all numbers ----

  lemma {:induction false} PrependedConcat(c: char, separator: char, a: seq<string>, b: seq<string>)
    requires |a| >= 1
    ensures Prepended(c, separator, a + b) == Prepended(c, separator, a) + b
  {
  }

  lemma {:induction false} SplitConcat(a: string, b: string)
    ensures Split(a + "." + b, '.') == Split(a, '.') + Split(b, '.')
  {
    var whole := a + "." + b;
    if a == [] {
      assert whole[1..] == b;
    } else {
      assert whole[0] == a[0] && whole[1..] == a[1..] + "." + b;
      SplitConcat(a[1..], b);
      PrependedConcat(a[0], '.', Split(a[1..], '.'), Split(b, '.'));
    }
  }

  lemma {:induction false} ParsedConcat(a: seq<string>, b: seq<string>)
    ensures ParsedPieces(a + b) == ParsedPieces(a) + ParsedPieces(b)
  {
    if a == [] {
      assert a + b == b;
    } else {
      assert (a + b)[1..] == a[1..] + b;
      ParsedConcat(a[1..], b);
    }
  }

  /** A piece with a character that no number has. */
  predicate NoNumber(piece: string) {
    piece == "" || piece == "+" || exists i :: 0 <= i < |piece| && !IsDigit(piece[i]) && (i > 0 || piece[i] != '+')
  }

  /** A version's components are those of its pieces in order, and a piece that is no number has none. */
  lemma {:induction false} ComponentsByPieces(a: string, b: string)
    ensures Components(a + "." + b) == Components(a) + Components(b)
    ensures NoNumber(a) && '.' !in a ==> Components(a) == []
  {
    SplitConcat(a, b);
    ParsedConcat(Split(a, '.'), Split(b, '.'));
    if NoNumber(a) && '.' !in a {
      SplitsToItself(a);
      NotParsed(a);
      assert ParsedPieces([a]) == ParsedPieces([a][1..]);
    }
  }

  lemma {:induction false} SplitsToItself(piece: string)
    requires '.' !in piece
    ensures Split(piece, '.') == [piece]
  {
    if piece != [] {
      SplitsToItself(piece[1..]);
      assert [piece[0]] + piece[1..] == piece;
    }
  }

  lemma {:induction false} NotParsed(piece: string)
    requires NoNumber(piece)
    ensures ParseU32(piece) == None
  {
    if piece != "" && piece != "+" {
      var i :| 0 <= i < |piece| && !IsDigit(piece[i]) && (i > 0 || piece[i] != '+');
      var k := if |piece| > 1 && piece[0] == '+' then i - 1 else i;
      assert WithoutPlus(piece)[k] == piece[i];
    } else {
      assert piece == "+" ==> !IsDigit(WithoutPlus(piece)[0]);
    }
  }
}
