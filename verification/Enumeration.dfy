/**
 Finding components: enumeration by index over all loaders, the lookup that
 creates a component, and the components that play a role.
 */
module Enumeration {
  import opened Basics

  /** A specific name of a component, and the role it stands for. */
  datatype Specific = Specific(name: string, role: string)

  datatype Template = Template(name: string, specifics: seq<Specific>)

  /** A loader is its list of templates. */
  type Loader = seq<Template>

  /** `strncpy` into a buffer of n characters. */
  function Truncated(s: string, n: nat): string { if |s| <= n then s else s[..n] }

  // ---------------------------------------------------------------------------
  // The flattened list of names
  // ---------------------------------------------------------------------------

  function SpecificNames(specifics: seq<Specific>): seq<string> {
    seq(|specifics|, j requires 0 <= j < |specifics| => specifics[j].name)
  }

  function Names(t: Template): seq<string> { [t.name] + SpecificNames(t.specifics) }

  function LoaderNames(l: Loader): seq<string> {
    if l == [] then [] else LoaderNames(l[..|l| - 1]) + Names(l[|l| - 1])
  }

  function AllNames(loaders: seq<Loader>): seq<string> {
    if loaders == [] then [] else AllNames(loaders[..|loaders| - 1]) + LoaderNames(loaders[|loaders| - 1])
  }

  /** The names of the first templates, then those of template i, come first. */
  lemma {:induction false} LoaderNamesFrom(l: Loader, i: nat)
    requires i < |l|
    ensures LoaderNames(l[..i]) + Names(l[i]) <= LoaderNames(l)
    ensures LoaderNames(l[..i + 1]) == LoaderNames(l[..i]) + Names(l[i])
    decreases |l|
  {
    assert l[..i + 1][..i] == l[..i];
    if i == |l| - 1 {
      assert l[..i + 1] == l;
    } else {
      LoaderNamesFrom(l[..|l| - 1], i);
      assert l[..|l| - 1][..i] == l[..i];
    }
  }

  /** Entry p of template i in the flattened list. */
  lemma NameAt(l: Loader, i: nat, p: nat)
    requires i < |l| && p < |Names(l[i])|
    ensures |LoaderNames(l[..i])| + p < |LoaderNames(l)|
    ensures LoaderNames(l)[|LoaderNames(l[..i])| + p] == Names(l[i])[p]
  {
    LoaderNamesFrom(l, i);
    assert LoaderNames(l)[|LoaderNames(l[..i])| + p] == (LoaderNames(l[..i]) + Names(l[i]))[|LoaderNames(l[..i])| + p];
  }

  lemma {:induction false} AllNamesFrom(loaders: seq<Loader>, i: nat)
    requires i < |loaders|
    ensures AllNames(loaders[..i]) + LoaderNames(loaders[i]) <= AllNames(loaders)
    ensures AllNames(loaders[..i + 1]) == AllNames(loaders[..i]) + LoaderNames(loaders[i])
    decreases |loaders|
  {
    assert loaders[..i + 1][..i] == loaders[..i];
    if i == |loaders| - 1 {
      assert loaders[..i + 1] == loaders;
    } else {
      AllNamesFrom(loaders[..|loaders| - 1], i);
      assert loaders[..|loaders| - 1][..i] == loaders[..i];
    }
  }

  /** How many entries the first i templates have: one for the general name of each, and one for each specific name. */
  function Entries(l: Loader, i: nat): nat
    requires i <= |l|
  {
    if i == 0 then 0 else Entries(l, i - 1) + 1 + |l[i - 1].specifics|
  }

  lemma {:induction false} EntriesAre(l: Loader, i: nat)
    requires i <= |l|
    ensures |LoaderNames(l[..i])| == Entries(l, i)
  {
    if i > 0 {
      EntriesAre(l, i - 1);
      assert l[..i][..i - 1] == l[..i - 1];
    }
  }

  /** The general name of a template comes first, then its specific names in order, then the next template's. */
  lemma EntryIs(l: Loader, i: nat, j: nat)
    requires i < |l| && j < |l[i].specifics|
    ensures Entries(l, i) + 1 + j < |LoaderNames(l)| == Entries(l, |l|)
    ensures LoaderNames(l)[Entries(l, i)] == l[i].name && LoaderNames(l)[Entries(l, i) + 1 + j] == l[i].specifics[j].name
  {
    EntriesAre(l, i);
    EntriesAre(l, |l|);
    assert l[..|l|] == l;
    NameAt(l, i, 0);
    NameAt(l, i, 1 + j);
  }

  // ---------------------------------------------------------------------------
  // Enumeration
  // ---------------------------------------------------------------------------

  /** BOSA_ST_ComponentNameEnum; the index counts a template's name and then its specific names. */
  method LoaderNameEnum(l: Loader, nameLength: nat, k: nat) returns (err: OmxError, name: string)
    ensures err == if k < |LoaderNames(l)| then ErrorNone else ErrorNoMore
    ensures k < |LoaderNames(l)| ==> name == Truncated(LoaderNames(l)[k], nameLength)
    ensures k < |LoaderNames(l)| ==>
              name <= LoaderNames(l)[k] && (|name| == nameLength || (|name| < nameLength && name == LoaderNames(l)[k]))
  {
    name := "";
    var index := 0;
    for i := 0 to |l|
      invariant index == |LoaderNames(l[..i])| <= k
    {
      LoaderNamesFrom(l, i);
      ghost var before := index;
      if index == k {
        NameAt(l, i, 0);
        return ErrorNone, Truncated(l[i].name, nameLength);
      }
      index := index + 1;
      for j := 0 to |l[i].specifics|
        invariant index == before + 1 + j <= k
      {
        if index == k {
          NameAt(l, i, 1 + j);
          return ErrorNone, Truncated(l[i].specifics[j].name, nameLength);
        }
        index := index + 1;
      }
    }
    assert l[..|l|] == l;
    return ErrorNoMore, "";
  }

  /** OMX_ComponentNameEnum: asks each loader for its names, one by one, until the index is reached. */
  method ComponentNameEnum(loaders: seq<Loader>, nameLength: nat, k: nat) returns (err: OmxError, name: string)
    ensures err == if k < |AllNames(loaders)| then ErrorNone else ErrorNoMore
    ensures k < |AllNames(loaders)| ==> name == Truncated(AllNames(loaders)[k], nameLength)
  {
    var index := 0;
    for i := 0 to |loaders|
      invariant index == |AllNames(loaders[..i])| <= k
    {
      AllNamesFrom(loaders, i);
      ghost var before := AllNames(loaders[..i]);
      var offset := 0;
      err, name := LoaderNameEnum(loaders[i], nameLength, offset);
      while err != ErrorNoMore
        invariant 0 <= offset <= |LoaderNames(loaders[i])| && index == |before| + offset <= k
        invariant err == if offset < |LoaderNames(loaders[i])| then ErrorNone else ErrorNoMore
        invariant err == ErrorNone ==> name == Truncated(LoaderNames(loaders[i])[offset], nameLength)
        decreases |LoaderNames(loaders[i])| - offset
      {
        if index == k {
          assert AllNames(loaders)[k] == (before + LoaderNames(loaders[i]))[k];
          return;
        }
        offset := offset + 1;
        index := index + 1;
        err, name := LoaderNameEnum(loaders[i], nameLength, offset);
      }
    }
    assert loaders[..|loaders|] == loaders;
    return ErrorNoMore, "";
  }

  // ---------------------------------------------------------------------------
  // Creation
  // ---------------------------------------------------------------------------

  /** The search of BOSA_ST_CreateComponent: the first template with that name, general or specific. */
  method FindTemplate(l: Loader, name: string) returns (position: Option<nat>)
    ensures position.Some? ==> position.value < |l| && name in Names(l[position.value])
    ensures forall i :: 0 <= i < (if position.Some? then position.value else |l|) ==> name !in Names(l[i])
  {
    for i := 0 to |l|
      invariant forall p :: 0 <= p < i ==> name !in Names(l[p])
    {
      if l[i].name == name {
        assert Names(l[i])[0] == name;
        return Some(i);
      }
      for j := 0 to |l[i].specifics|
        invariant name !in Names(l[i])[..j + 1]
      {
        if l[i].specifics[j].name == name {
          assert Names(l[i])[j + 1] == name;
          return Some(i);
        }
        assert Names(l[i])[..j + 2] == Names(l[i])[..j + 1] + [l[i].specifics[j].name];
      }
      assert Names(l[i])[..|l[i].specifics| + 1] == Names(l[i]);
    }
    return None;
  }

  lemma {:induction false} LoaderHasName(l: Loader, name: string)
    ensures name in LoaderNames(l) <==> exists p :: 0 <= p < |l| && name in Names(l[p])
  {
    if l == [] {
    } else {
      var front, last := l[..|l| - 1], |l| - 1;
      LoaderHasName(front, name);
      assert name in LoaderNames(l) <==> name in LoaderNames(front) || name in Names(l[last]);
      if name !in LoaderNames(front) && name !in Names(l[last]) {
        forall p | 0 <= p < |l| ensures name !in Names(l[p]) { assert p < last ==> l[p] == front[p]; }
      } else if name in LoaderNames(front) {
        var p :| 0 <= p < |front| && name in Names(front[p]);
        assert l[p] == front[p];
      }
    }
  }

  /** A loader that has the name, if one does. */
  lemma {:induction false} LoaderOfName(loaders: seq<Loader>, name: string) returns (i: nat)
    requires name in AllNames(loaders)
    ensures i < |loaders| && name in LoaderNames(loaders[i])
  {
    i := |loaders| - 1;
    if name !in LoaderNames(loaders[i]) {
      i := LoaderOfName(loaders[..i], name);
    }
  }

  lemma NameOfLoader(loaders: seq<Loader>, name: string, i: nat)
    requires i < |loaders| && name in LoaderNames(loaders[i])
    ensures name in AllNames(loaders)
  {
    AllNamesFrom(loaders, i);
    assert name in AllNames(loaders[..i]) + LoaderNames(loaders[i]);
  }

  lemma SomeLoaderHasName(loaders: seq<Loader>, name: string)
    ensures name in AllNames(loaders) <==> exists i :: 0 <= i < |loaders| && name in LoaderNames(loaders[i])
  {
    if name in AllNames(loaders) {
      var i := LoaderOfName(loaders, name);
    }
    if i :| 0 <= i < |loaders| && name in LoaderNames(loaders[i]) {
      NameOfLoader(loaders, name, i);
    }
  }

  /** A name can be created exactly when some index enumerates it. */
  lemma CreatableExactlyWhenEnumerated(loaders: seq<Loader>, name: string)
    ensures (exists i, p :: 0 <= i < |loaders| && 0 <= p < |loaders[i]| && name in Names(loaders[i][p])) <==>
            (exists k :: 0 <= k < |AllNames(loaders)| && AllNames(loaders)[k] == name)
  {
    SomeLoaderHasName(loaders, name);
    forall i | 0 <= i < |loaders|
      ensures name in LoaderNames(loaders[i]) <==> exists p :: 0 <= p < |loaders[i]| && name in Names(loaders[i][p])
    {
      LoaderHasName(loaders[i], name);
    }
  }

  /** What becomes of the constructor of a template. */
  type Constructors = (nat, nat) -> OmxError

  /** BOSA_ST_CreateComponent: any constructor error but one is reported as not found. */
  function Created(i: nat, position: Option<nat>, make: Constructors): OmxError {
    if position == None then ErrorComponentNotFound
    else
      var err := make(i, position.value);
      if err == ErrorNone || err == ErrorInsufficientResources then err else ErrorComponentNotFound
  }

  ghost predicate Makes(l: Loader, i: nat, name: string, make: Constructors) {
    exists p :: 0 <= p < |l| && First(l, name, p) && make(i, p) == ErrorNone
  }

  /** Template p is the first of the loader with that name. */
  ghost predicate First(l: Loader, name: string, p: nat)
    requires p < |l|
  {
    name in Names(l[p]) && forall q :: 0 <= q < p ==> name !in Names(l[q])
  }

  /** The loader finds the name, and its constructor lacks resources. */
  ghost predicate Starves(l: Loader, i: nat, name: string, make: Constructors) {
    exists p :: 0 <= p < |l| && First(l, name, p) && make(i, p) == ErrorInsufficientResources
  }

  /**
   OMX_GetHandle: the first loader that makes the component.  When none does, a
   lack of resources is reported exactly if it was the last loader's.
   */
  method GetHandle(loaders: seq<Loader>, name: string, make: Constructors) returns (err: OmxError, loader: nat)
    ensures err == ErrorNone <==> exists i :: 0 <= i < |loaders| && Makes(loaders[i], i, name, make)
    ensures err == ErrorNone ==>
              loader < |loaders| && Makes(loaders[loader], loader, name, make)
              && forall i :: 0 <= i < loader ==> !Makes(loaders[i], i, name, make)
    ensures err != ErrorNone ==>
              err == if |loaders| > 0 && Starves(loaders[|loaders| - 1], |loaders| - 1, name, make)
                     then ErrorInsufficientResources else ErrorComponentNotFound
  {
    err, loader := ErrorNone, 0;
    for i := 0 to |loaders|
      invariant forall q :: 0 <= q < i ==> !Makes(loaders[q], q, name, make)
      invariant i == 0 ==> err == ErrorNone
      invariant i > 0 ==> (err == ErrorInsufficientResources <==> Starves(loaders[i - 1], i - 1, name, make))
    {
      var position := FindTemplate(loaders[i], name);
      assert position.Some? ==> First(loaders[i], name, position.value);
      assert forall p :: 0 <= p < |loaders[i]| && First(loaders[i], name, p) ==> position == Some(p);
      err := Created(i, position, make);
      if err == ErrorNone {
        return ErrorNone, i;
      }
    }
    if err == ErrorInsufficientResources {
      return ErrorInsufficientResources, 0;
    }
    return ErrorComponentNotFound, 0;
  }

  // ---------------------------------------------------------------------------
  // Components of a role
  // ---------------------------------------------------------------------------

  /** The general name of the template, once for each of these specific names that has the role. */
  function TemplateMatches(name: string, specifics: seq<Specific>, role: string): seq<string> {
    if specifics == [] then []
    else TemplateMatches(name, specifics[..|specifics| - 1], role) + if specifics[|specifics| - 1].role == role then [name] else []
  }

  function LoaderMatches(l: Loader, role: string): seq<string> {
    if l == [] then []
    else LoaderMatches(l[..|l| - 1], role) + TemplateMatches(l[|l| - 1].name, l[|l| - 1].specifics, role)
  }

  function AllMatches(loaders: seq<Loader>, role: string): seq<string> {
    if loaders == [] then [] else AllMatches(loaders[..|loaders| - 1], role) + LoaderMatches(loaders[|loaders| - 1], role)
  }

  /** How many of the first j specific names have the role. */
  function Players(specifics: seq<Specific>, role: string, j: nat): nat
    requires j <= |specifics|
  {
    if j == 0 then 0 else Players(specifics, role, j - 1) + if specifics[j - 1].role == role then 1 else 0
  }

  /** And how many in the first i templates. */
  function PlayersBefore(l: Loader, role: string, i: nat): nat
    requires i <= |l|
  {
    if i == 0 then 0 else PlayersBefore(l, role, i - 1) + Players(l[i - 1].specifics, role, |l[i - 1].specifics|)
  }

  lemma {:induction false} MatchesOfTemplate(name: string, specifics: seq<Specific>, role: string, j: nat)
    requires j <= |specifics|
    ensures |TemplateMatches(name, specifics[..j], role)| == Players(specifics, role, j)
    ensures forall x :: x in TemplateMatches(name, specifics[..j], role) ==> x == name
  {
    if j > 0 {
      MatchesOfTemplate(name, specifics, role, j - 1);
      assert specifics[..j][..j - 1] == specifics[..j - 1];
    }
  }

  lemma {:induction false} LoaderMatchesFrom(l: Loader, role: string, i: nat)
    requires i < |l|
    ensures LoaderMatches(l[..i], role) + TemplateMatches(l[i].name, l[i].specifics, role) <= LoaderMatches(l, role)
    decreases |l|
  {
    if i == |l| - 1 {
      assert l[..i] == l[..|l| - 1];
    } else {
      LoaderMatchesFrom(l[..|l| - 1], role, i);
      assert l[..|l| - 1][..i] == l[..i];
    }
  }

  lemma {:induction false} MatchesBefore(l: Loader, role: string, i: nat)
    requires i <= |l|
    ensures |LoaderMatches(l[..i], role)| == PlayersBefore(l, role, i)
  {
    if i > 0 {
      MatchesBefore(l, role, i - 1);
      assert l[..i][..i - 1] == l[..i - 1] && l[i - 1].specifics[..|l[i - 1].specifics|] == l[i - 1].specifics;
      MatchesOfTemplate(l[i - 1].name, l[i - 1].specifics, role, |l[i - 1].specifics|);
    }
  }

  /** A template's general name is listed once for each specific name with the role, after those of the templates before it. */
  lemma MatchIs(l: Loader, role: string, i: nat, r: nat)
    requires i < |l| && r < Players(l[i].specifics, role, |l[i].specifics|)
    ensures PlayersBefore(l, role, i) + r < |LoaderMatches(l, role)| == PlayersBefore(l, role, |l|)
    ensures LoaderMatches(l, role)[PlayersBefore(l, role, i) + r] == l[i].name
  {
    MatchesBefore(l, role, i);
    AllCounted(l, role);
    LoaderMatchesFrom(l, role, i);
    OwnMatches(l[i], role, r);
    Inside(LoaderMatches(l[..i], role), TemplateMatches(l[i].name, l[i].specifics, role), LoaderMatches(l, role), r);
  }

  lemma AllCounted(l: Loader, role: string)
    ensures |LoaderMatches(l, role)| == PlayersBefore(l, role, |l|)
  {
    MatchesBefore(l, role, |l|);
    assert l[..|l|] == l;
  }

  lemma OwnMatches(t: Template, role: string, r: nat)
    requires r < Players(t.specifics, role, |t.specifics|)
    ensures r < |TemplateMatches(t.name, t.specifics, role)| && TemplateMatches(t.name, t.specifics, role)[r] == t.name
  {
    assert t.specifics[..|t.specifics|] == t.specifics;
    MatchesOfTemplate(t.name, t.specifics, role, |t.specifics|);
    var own := TemplateMatches(t.name, t.specifics, role);
    assert own[r] in own;
  }

  lemma Inside(before: seq<string>, own: seq<string>, all: seq<string>, r: nat)
    requires before + own <= all && r < |own|
    ensures |before| + r < |all| && all[|before| + r] == own[r]
  {
    assert all[|before| + r] == (before + own)[|before| + r];
  }

  /** The first entries of the array are those of `matches`, as many as fit under the bound; the others are untouched. */
  twostate predicate Lists(names: array<string>, matches: seq<string>, bound: nat)
    reads names
  {
    && bound <= names.Length
    && (forall j :: 0 <= j < bound && j < |matches| ==> names[j] == matches[j])
    && (forall j :: |matches| <= j < names.Length || bound <= j < names.Length ==> names[j] == old(names[j]))
  }

  /** BOSA_ST_GetComponentsOfRole; without an array it only counts. */
  method LoaderComponentsOfRole(l: Loader, role: string, bound: nat, names: array?<string>) returns (count: nat)
    requires names != null ==> bound <= names.Length
    modifies if names != null then {names} else {}
    ensures count == |LoaderMatches(l, role)|
    ensures names != null ==> Lists(names, LoaderMatches(l, role), bound)
  {
    count := 0;
    for i := 0 to |l|
      invariant count == |LoaderMatches(l[..i], role)|
      invariant names != null ==> Lists(names, LoaderMatches(l[..i], role), bound)
    {
      ghost var before := LoaderMatches(l[..i], role);
      for j := 0 to |l[i].specifics|
        invariant count == |before + TemplateMatches(l[i].name, l[i].specifics[..j], role)|
        invariant names != null ==> Lists(names, before + TemplateMatches(l[i].name, l[i].specifics[..j], role), bound)
      {
        assert l[i].specifics[..j + 1][..j] == l[i].specifics[..j];
        if l[i].specifics[j].role == role {
          if names != null && count < bound {
            names[count] := l[i].name;
          }
          count := count + 1;
        }
      }
      assert l[i].specifics[..|l[i].specifics|] == l[i].specifics && l[..i + 1][..i] == l[..i];
    }
    assert l[..|l|] == l;
  }

  /** Copies the names of one loader behind those of the loaders before it, as far as there is room. */
  method AppendNames(temp: array<string>, count: nat, bound: nat, compNames: array<string>)
    requires bound <= compNames.Length && temp != compNames
    modifies compNames
    ensures forall k :: 0 <= k < compNames.Length ==>
              compNames[k] == if count <= k < count + temp.Length && k < bound then temp[k - count] else old(compNames[k])
  {
    for j := 0 to temp.Length
      invariant forall k :: 0 <= k < compNames.Length ==>
                  compNames[k] == if count <= k < count + j && k < bound then temp[k - count] else old(compNames[k])
    {
      if count + j < bound {
        compNames[count + j] := temp[j];
      }
    }
  }

  /** One loader's names, counted first and then, with an array, fetched and copied behind those found so far. */
  method AddMatches(l: Loader, role: string, count: nat, bound: nat, compNames: array?<string>) returns (found: nat)
    requires compNames != null ==> bound <= compNames.Length
    modifies if compNames != null then {compNames} else {}
    ensures found == |LoaderMatches(l, role)|
    ensures compNames != null ==>
              forall k :: 0 <= k < compNames.Length ==>
                compNames[k] == if count <= k < count + found && k < bound then LoaderMatches(l, role)[k - count] else old(compNames[k])
  {
    found := LoaderComponentsOfRole(l, role, bound, null);
    if compNames != null {
      var temp := new string[found](_ => "");
      found := LoaderComponentsOfRole(l, role, found, temp);
      assert temp[..] == LoaderMatches(l, role);
      AppendNames(temp, count, bound, compNames);
    }
  }

  /**
   OMX_GetComponentsOfRole, both calls of the protocol: the count is of all
   matches; with an array, the first entries of the whole list are filled in order.
   */
  method GetComponentsOfRole(loaders: seq<Loader>, role: string, bound: nat, compNames: array?<string>) returns (count: nat)
    requires compNames != null ==> bound <= compNames.Length
    modifies if compNames != null then {compNames} else {}
    ensures count == |AllMatches(loaders, role)|
    ensures compNames != null ==> Lists(compNames, AllMatches(loaders, role), bound)
  {
    count := 0;
    for i := 0 to |loaders|
      invariant count == |AllMatches(loaders[..i], role)|
      invariant compNames != null ==> Lists(compNames, AllMatches(loaders[..i], role), bound)
    {
      assert loaders[..i + 1][..i] == loaders[..i];
      var found := AddMatches(loaders[i], role, count, bound, compNames);
      count := count + found;
    }
    assert loaders[..|loaders|] == loaders;
  }

  predicate Plays(t: Template, role: string) { exists j :: 0 <= j < |t.specifics| && t.specifics[j].role == role }

  lemma {:induction false} TemplateListedExactly(t: Template, specifics: seq<Specific>, role: string, x: string)
    ensures x in TemplateMatches(t.name, specifics, role) <==>
            x == t.name && exists j :: 0 <= j < |specifics| && specifics[j].role == role
  {
    if specifics == [] {
    } else {
      TemplateListedExactly(t, specifics[..|specifics| - 1], role, x);
    }
  }

  /** A name is listed exactly when it is the general name of a template that plays the role. */
  lemma {:induction false} ListedExactlyWhenPlayed(l: Loader, role: string, x: string)
    ensures x in LoaderMatches(l, role) <==> exists p :: 0 <= p < |l| && l[p].name == x && Plays(l[p], role)
  {
    if l == [] {
    } else {
      ListedExactlyWhenPlayed(l[..|l| - 1], role, x);
      TemplateListedExactly(l[|l| - 1], l[|l| - 1].specifics, role, x);
      assert x in LoaderMatches(l, role) <==>
             x in LoaderMatches(l[..|l| - 1], role) || x in TemplateMatches(l[|l| - 1].name, l[|l| - 1].specifics, role);
    }
  }
}
