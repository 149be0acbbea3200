/**
 Several services as one server: what each declares is read once, clashes are refused, and
 every name is routed to the service that declared it.
 */
module Combine {
  import opened Results

  datatype Kind = Tool | Prompt | Resource | Template

  datatype Item = Item(name: string, body: string)

  /** A list as a service serves it, page by page; there is always a first page. */
  type Pages = pages: seq<Result<seq<Item>, string>> | |pages| > 0 witness [Ok([])]

  datatype Capabilities = Capabilities(
    tools: Option<string>,
    prompts: Option<string>,
    resources: Option<string>,
    completions: Option<string>,
    logging: Option<string>)

  const NO_CAPABILITIES := Capabilities(None, None, None, None, None)

  /** A service: what it advertises, what it lists, and what it answers to a name or URI. */
  datatype Member = Member(
    capabilities: Capabilities,
    lists: Kind -> Pages,
    answers: (Kind, string) -> Result<string, string>,
    completes: string -> Result<seq<string>, string>)

  datatype Inventory = Inventory(tools: seq<string>, prompts: seq<string>, resources: seq<string>, templates: seq<string>)

  function Declared(inventory: Inventory, kind: Kind): seq<string> {
    match kind
    case Tool => inventory.tools
    case Prompt => inventory.prompts
    case Resource => inventory.resources
    case Template => inventory.templates
  }

  // ---------------------------------------------------------------- reading a service

  function NamesOf(items: seq<Item>): (names: seq<string>)
    ensures |names| == |items|
    ensures forall k | 0 <= k < |items| :: names[k] == items[k].name
  {
    seq(|items|, k requires 0 <= k < |items| => items[k].name)
  }

  /** The names on every page, or what went wrong with the first page that could not be read. */
  function EveryPage(pages: seq<Result<seq<Item>, string>>): Result<seq<string>, string> {
    if pages == [] then Ok([])
    else match EveryPage(pages[..|pages| - 1])
      case Err(e) => Err(e)
      case Ok(names) =>
        match pages[|pages| - 1]
        case Err(e) => Err(e)
        case Ok(items) => Ok(names + NamesOf(items))
  }

  /** `Probe::list`: page after page until there is no next one. */
  method ListAll(pages: Pages) returns (result: Result<seq<string>, string>)
    ensures result == EveryPage(pages)
  {
    var names, page := [], 0;
    while true
      invariant 0 <= page < |pages|
      invariant EveryPage(pages[..page]) == Ok(names)
      decreases |pages| - page
    {
      assert pages[..page + 1][..page] == pages[..page];
      match pages[page] {
        case Err(e) =>
          FirstBadPage(pages, page);
          return Err(e);
        case Ok(items) => names := names + NamesOf(items);
      }
      page := page + 1;
      if page == |pages| { break; }
    }
    assert pages[..|pages|] == pages;
    result := Ok(names);
  }

  lemma {:induction false} FirstBadPage(pages: seq<Result<seq<Item>, string>>, page: nat)
    requires page < |pages| && EveryPage(pages[..page]).Ok? && pages[page].Err?
    ensures EveryPage(pages) == Err(pages[page].error)
    decreases |pages|
  {
    if page == |pages| - 1 {
    } else {
      assert pages[..|pages| - 1][..page] == pages[..page];
      FirstBadPage(pages[..|pages| - 1], page);
    }
  }

  predicate Advertises(capabilities: Capabilities, kind: Kind) {
    match kind
    case Tool => capabilities.tools.Some?
    case Prompt => capabilities.prompts.Some?
    case Resource => capabilities.resources.Some?
    case Template => capabilities.resources.Some?
  }

  /** What a member declares of one kind. */
  function Read(member: Member, kind: Kind): Result<seq<string>, string> {
    if Advertises(member.capabilities, kind) then EveryPage(member.lists(kind)) else Ok([])
  }

  /** `inventory` is what a client reading all of the member's lists would find. */
  ghost predicate IsInventory(member: Member, inventory: Inventory) {
    forall kind :: Read(member, kind) == Ok(Declared(inventory, kind))
  }

  /** `Probe::run`. A kind the member does not advertise is not asked for. */
  method TakeInventory(member: Member) returns (result: Result<Inventory, string>)
    ensures result.Ok? ==> IsInventory(member, result.value)
    ensures result.Err? ==> exists kind :: Read(member, kind) == Err(result.error)
  {
    var inventory := Inventory([], [], [], []);
    if member.capabilities.tools.Some? {
      var tools := ListAll(member.lists(Tool));
      if tools.Err? { assert Read(member, Tool) == Err(tools.error); return Err(tools.error); }
      inventory := inventory.(tools := tools.value);
    }
    if member.capabilities.prompts.Some? {
      var prompts := ListAll(member.lists(Prompt));
      if prompts.Err? { assert Read(member, Prompt) == Err(prompts.error); return Err(prompts.error); }
      inventory := inventory.(prompts := prompts.value);
    }
    if member.capabilities.resources.Some? {
      var resources := ListAll(member.lists(Resource));
      if resources.Err? { assert Read(member, Resource) == Err(resources.error); return Err(resources.error); }
      var templates := ListAll(member.lists(Template));
      if templates.Err? { assert Read(member, Template) == Err(templates.error); return Err(templates.error); }
      inventory := inventory.(resources := resources.value, templates := templates.value);
    }
    result := Ok(inventory);
  }

  // ---------------------------------------------------------------- labels

  /** How a string is quoted in a message. */
  type Quoting = string -> string

  /** Quoting opens with a quote and loses nothing. */
  ghost predicate Faithful(quote: Quoting) {
    && (forall n :: |quote(n)| > 0 && quote(n)[0] == '"')
    && (forall m, n :: quote(m) == quote(n) ==> m == n)
  }

  function Word(kind: Kind): string {
    match kind
    case Tool => "tool "
    case Prompt => "prompt "
    case Resource => "resource "
    case Template => "resource template "
  }

  /** A declaration as a message names it. */
  function Label(quote: Quoting, kind: Kind, name: string): string {
    Word(kind) + quote(name)
  }

  /** A way of naming declarations. */
  type Labelling = (Kind, string) -> string

  function LabelsBy(quote: Quoting): Labelling {
    (kind, name) => Label(quote, kind, name)
  }

  /** It says which kind and which name it stands for. */
  ghost predicate TellsApart(called: Labelling) {
    forall j, m, k, n :: called(j, m) == called(k, n) ==> j == k && m == n
  }

  /** No two declarations share a label by accident. */
  lemma LabelsAreDistinct(quote: Quoting)
    requires Faithful(quote)
    ensures TellsApart(LabelsBy(quote))
  {
    forall j, m, k, n | Label(quote, j, m) == Label(quote, k, n) ensures j == k && m == n {
      SameLabel(quote, j, m, k, n);
    }
  }

  lemma SameLabel(quote: Quoting, j: Kind, m: string, k: Kind, n: string)
    requires Faithful(quote) && Label(quote, j, m) == Label(quote, k, n)
    ensures j == k && m == n
  {
    assert Label(quote, j, m)[0] == Word(j)[0] && Label(quote, k, n)[0] == Word(k)[0];
    assert Label(quote, j, m)[|Word(j)|..] == quote(m);
    assert Label(quote, k, n)[|Word(k)|..] == quote(n);
  }

  function Labels(called: Labelling, kind: Kind, names: seq<string>): (labels: seq<string>)
    ensures |labels| == |names|
  {
    seq(|names|, k requires 0 <= k < |names| => called(kind, names[k]))
  }

  /** `Inventory::names`. */
  function Names(called: Labelling, inventory: Inventory): seq<string> {
    Labels(called, Tool, inventory.tools) + Labels(called, Prompt, inventory.prompts)
    + Labels(called, Resource, inventory.resources) + Labels(called, Template, inventory.templates)
  }

  // ---------------------------------------------------------------- clashes

  /** A label and the service that declares it. */
  datatype Declaration = Declaration(text: string, owner: nat)

  datatype Clash = Clash(text: string, first: nat, second: nat)

  function From(labels: seq<string>, owner: nat): (declarations: seq<Declaration>)
    ensures |declarations| == |labels|
    ensures forall k | 0 <= k < |labels| :: declarations[k] == Declaration(labels[k], owner)
  {
    seq(|labels|, k requires 0 <= k < |labels| => Declaration(labels[k], owner))
  }

  /** Lists of labels end to end, each with its place among the lists as its owner. */
  function Flat(lists: seq<seq<string>>): seq<Declaration> {
    if lists == [] then []
    else Flat(lists[..|lists| - 1]) + From(lists[|lists| - 1], |lists| - 1)
  }

  /** Each service's labels. */
  function LabelLists(called: Labelling, inventories: seq<Inventory>): (lists: seq<seq<string>>)
    ensures |lists| == |inventories|
  {
    if inventories == [] then []
    else
      var last := |inventories| - 1;
      LabelLists(called, inventories[..last]) + [Names(called, inventories[last])]
  }

  lemma {:induction false} LabelListOf(called: Labelling, inventories: seq<Inventory>, i: nat)
    requires i < |inventories|
    ensures LabelLists(called, inventories)[i] == Names(called, inventories[i])
    decreases |inventories|
  {
    if i < |inventories| - 1 { LabelListOf(called, inventories[..|inventories| - 1], i); }
  }

  /** Every declaration of every service, in the order they are checked. */
  function All(called: Labelling, inventories: seq<Inventory>): seq<Declaration> {
    Flat(LabelLists(called, inventories))
  }

  /** The first declaration of each label. */
  function Owners(all: seq<Declaration>): map<string, nat> {
    if all == [] then map[]
    else
      var before := Owners(all[..|all| - 1]);
      var d := all[|all| - 1];
      if d.text in before then before else before[d.text := d.owner]
  }

  /** A clash for every declaration that is not the first of its label. */
  function Clashes(all: seq<Declaration>): seq<Clash> {
    if all == [] then []
    else
      var before := Owners(all[..|all| - 1]);
      var d := all[|all| - 1];
      Clashes(all[..|all| - 1]) + if d.text in before then [Clash(d.text, before[d.text], d.owner)] else []
  }

  lemma OneMore(all: seq<Declaration>, d: Declaration)
    ensures Owners(all + [d]) == if d.text in Owners(all) then Owners(all) else Owners(all)[d.text := d.owner]
    ensures Clashes(all + [d])
         == Clashes(all) + if d.text in Owners(all) then [Clash(d.text, Owners(all)[d.text], d.owner)] else []
  {
    assert (all + [d])[..|all|] == all;
  }

  lemma AllMore(called: Labelling, inventories: seq<Inventory>, index: nat)
    requires index < |inventories|
    ensures All(called, inventories[..index + 1]) == All(called, inventories[..index]) + From(Names(called, inventories[index]), index)
  {
    assert inventories[..index + 1][..index] == inventories[..index];
    assert LabelLists(called, inventories[..index + 1])[..index] == LabelLists(called, inventories[..index]);
  }

  lemma FromMore(before: seq<Declaration>, names: seq<string>, k: nat, index: nat)
    requires k < |names|
    ensures before + From(names[..k + 1], index) == before + From(names[..k], index) + [Declaration(names[k], index)]
  {
  }

  /** The names of one service, checked against every one before it. */
  method CheckNames(names: seq<string>, index: nat, taken: map<string, nat>, ghost before: seq<Declaration>)
    returns (owner: map<string, nat>, clashes: seq<Clash>)
    requires taken == Owners(before)
    ensures owner == Owners(before + From(names, index))
    ensures Clashes(before) + clashes == Clashes(before + From(names, index))
  {
    owner, clashes := taken, [];
    ghost var checked := before;
    assert before + From(names[..0], index) == before;
    for k := 0 to |names|
      invariant checked == before + From(names[..k], index)
      invariant owner == Owners(checked) && Clashes(before) + clashes == Clashes(checked)
    {
      OneMore(checked, Declaration(names[k], index));
      FromMore(before, names, k, index);
      checked := checked + [Declaration(names[k], index)];
      if names[k] in owner {
        clashes := clashes + [Clash(names[k], owner[names[k]], index)];
        continue;
      }
      owner := owner[names[k] := index];
    }
    assert names[..|names|] == names;
  }

  /** `check_collisions`. */
  method CheckCollisions(called: Labelling, inventories: seq<Inventory>) returns (clashes: seq<Clash>)
    ensures clashes == Clashes(All(called, inventories))
  {
    var owner: map<string, nat> := map[];
    clashes := [];
    for index := 0 to |inventories|
      invariant owner == Owners(All(called, inventories[..index]))
      invariant clashes == Clashes(All(called, inventories[..index]))
    {
      var found;
      owner, found := CheckNames(Names(called, inventories[index]), index, owner, All(called, inventories[..index]));
      clashes := clashes + found;
      AllMore(called, inventories, index);
    }
    assert inventories[..|inventories|] == inventories;
  }

  function LabelsIn(all: seq<Declaration>): set<string> {
    if all == [] then {} else LabelsIn(all[..|all| - 1]) + {all[|all| - 1].text}
  }

  lemma {:induction false} LabelsInExactly(all: seq<Declaration>, text: string)
    ensures text in LabelsIn(all) <==> exists k | 0 <= k < |all| :: all[k].text == text
    decreases |all|
  {
    if all != [] {
      var last := |all| - 1;
      LabelsInExactly(all[..last], text);
      if text in LabelsIn(all[..last]) {
        var k :| 0 <= k < last && all[..last][k].text == text;
        assert all[k].text == text;
      } else if k :| 0 <= k < |all| && all[k].text == text {
        if k < last { assert all[..last][k].text == text; }
      }
    }
  }

  ghost predicate AllDistinct(all: seq<Declaration>) {
    forall j, k | 0 <= j < k < |all| :: all[j].text != all[k].text
  }

  /** One more declaration keeps them distinct exactly when its label is new. */
  lemma DistinctMore(all: seq<Declaration>, d: Declaration)
    ensures AllDistinct(all + [d]) <==> AllDistinct(all) && d.text !in LabelsIn(all)
  {
    var more := all + [d];
    LabelsInExactly(all, d.text);
    assert forall k | 0 <= k < |all| :: more[k] == all[k];
    if d.text in LabelsIn(all) {
      var k :| 0 <= k < |all| && all[k].text == d.text;
      assert more[k].text == more[|all|].text;
    } else if AllDistinct(all) {
      forall j, k | 0 <= j < k < |more| ensures more[j].text != more[k].text {
      }
    } else {
      var j, k :| 0 <= j < k < |all| && all[j].text == all[k].text;
      assert more[j].text == more[k].text;
    }
  }

  /** `p` is where `text` is first declared. */
  ghost predicate FirstAt(all: seq<Declaration>, text: string, p: nat) {
    && p < |all| && all[p].text == text
    && forall j | 0 <= j < p :: all[j].text != text
  }

  lemma {:induction false} OwnersAreTheLabels(all: seq<Declaration>)
    ensures Owners(all).Keys == LabelsIn(all)
    decreases |all|
  {
    if all != [] { OwnersAreTheLabels(all[..|all| - 1]); }
  }

  /** The owner of a label is the service that declared it first. */
  lemma {:induction false} OwnersAreFirst(all: seq<Declaration>, text: string, p: nat)
    requires FirstAt(all, text, p)
    ensures text in Owners(all) && Owners(all)[text] == all[p].owner
    decreases |all|
  {
    var last := |all| - 1;
    var before := all[..last];
    if p < last {
      OwnersAreFirst(before, text, p);
    } else {
      OwnersAreTheLabels(before);
      LabelsInExactly(before, text);
    }
  }

  lemma OneMoreMember(labels: set<string>, text: string)
    ensures |labels + {text}| == |labels| + if text in labels then 0 else 1
  {
    if text in labels { assert labels + {text} == labels; }
  }

  /** There are as many clashes as declarations beyond the distinct ones. */
  lemma {:induction false} ClashesAreCounted(all: seq<Declaration>)
    ensures |Clashes(all)| == |all| - |LabelsIn(all)|
    decreases |all|
  {
    if all != [] {
      var before := all[..|all| - 1];
      ClashesAreCounted(before);
      OwnersAreTheLabels(before);
      OneMoreMember(LabelsIn(before), all[|all| - 1].text);
    }
  }

  /** Nothing is reported exactly when every label is declared once. */
  lemma {:induction false} AcceptedExactly(all: seq<Declaration>)
    ensures Clashes(all) == [] <==> AllDistinct(all)
    decreases |all|
  {
    if all != [] {
      var before, d := all[..|all| - 1], all[|all| - 1];
      AcceptedExactly(before);
      OwnersAreTheLabels(before);
      DistinctMore(before, d);
      assert all == before + [d];
    }
  }

  /** A clash names the label, the service that declared it first, and the one that did so again. */
  lemma {:induction false} ClashesAreNamed(all: seq<Declaration>, c: nat) returns (p: nat, q: nat)
    requires c < |Clashes(all)|
    ensures p < q < |all| && FirstAt(all, all[q].text, p)
    ensures Clashes(all)[c] == Clash(all[q].text, all[p].owner, all[q].owner)
    decreases |all|
  {
    var n := |all| - 1;
    var before := all[..n];
    if c < |Clashes(before)| {
      p, q := ClashesAreNamed(before, c);
    } else {
      OwnersAreTheLabels(before);
      LabelsInExactly(before, all[n].text);
      var k :| 0 <= k < |before| && before[k].text == all[n].text;
      p := Earliest(before, k);
      q := n;
      OwnersAreFirst(before, all[n].text, p);
    }
  }

  lemma {:induction false} Earliest(all: seq<Declaration>, k: nat) returns (p: nat)
    requires k < |all|
    ensures p <= k && FirstAt(all, all[k].text, p)
    decreases k
  {
    p := k;
    if j :| 0 <= j < k && all[j].text == all[k].text { p := Earliest(all, j); }
  }

  /** Where the declarations of one kind begin among a service's labels. */
  function Offset(inventory: Inventory, kind: Kind): nat {
    match kind
    case Tool => 0
    case Prompt => |inventory.tools|
    case Resource => |inventory.tools| + |inventory.prompts|
    case Template => |inventory.tools| + |inventory.prompts| + |inventory.resources|
  }

  /** A service's labels before those of one kind, and after them. */
  function LabelsBefore(called: Labelling, inventory: Inventory, kind: Kind): seq<string> {
    match kind
    case Tool => []
    case Prompt => Labels(called, Tool, inventory.tools)
    case Resource => Labels(called, Tool, inventory.tools) + Labels(called, Prompt, inventory.prompts)
    case Template => Labels(called, Tool, inventory.tools) + Labels(called, Prompt, inventory.prompts)
                     + Labels(called, Resource, inventory.resources)
  }

  function LabelsAfter(called: Labelling, inventory: Inventory, kind: Kind): seq<string> {
    match kind
    case Tool => Labels(called, Prompt, inventory.prompts) + Labels(called, Resource, inventory.resources)
                 + Labels(called, Template, inventory.templates)
    case Prompt => Labels(called, Resource, inventory.resources) + Labels(called, Template, inventory.templates)
    case Resource => Labels(called, Template, inventory.templates)
    case Template => []
  }

  lemma NamesInParts(called: Labelling, inventory: Inventory, kind: Kind)
    ensures Names(called, inventory) == LabelsBefore(called, inventory, kind) + Labels(called, kind, Declared(inventory, kind))
                                     + LabelsAfter(called, inventory, kind)
    ensures |LabelsBefore(called, inventory, kind)| == Offset(inventory, kind)
  {
  }

  lemma Middle(before: seq<string>, middle: seq<string>, after: seq<string>, j: nat)
    requires j < |middle|
    ensures (before + middle + after)[|before| + j] == middle[j]
  {
  }

  lemma LabelAt(called: Labelling, inventory: Inventory, kind: Kind, j: nat)
    requires j < |Declared(inventory, kind)|
    ensures var k := Offset(inventory, kind) + j;
      k < |Names(called, inventory)| && Names(called, inventory)[k] == called(kind, Declared(inventory, kind)[j])
  {
    NamesInParts(called, inventory, kind);
    Middle(LabelsBefore(called, inventory, kind), Labels(called, kind, Declared(inventory, kind)),
           LabelsAfter(called, inventory, kind), j);
  }

  lemma LabelOf(called: Labelling, inventory: Inventory, k: nat) returns (kind: Kind, j: nat)
    requires k < |Names(called, inventory)|
    ensures j < |Declared(inventory, kind)| && k == Offset(inventory, kind) + j
  {
    kind := if k < Offset(inventory, Prompt) then Tool
            else if k < Offset(inventory, Resource) then Prompt
            else if k < Offset(inventory, Template) then Resource
            else Template;
    j := k - Offset(inventory, kind);
  }

  lemma {:induction false} DeclarationAt(lists: seq<seq<string>>, i: nat, k: nat)
    requires i < |lists| && k < |lists[i]|
    ensures var p := |Flat(lists[..i])| + k;
      p < |Flat(lists)| && Flat(lists)[p] == Declaration(lists[i][k], i)
    decreases |lists|
  {
    var last := |lists| - 1;
    if i < last {
      assert lists[..last][..i] == lists[..i];
      DeclarationAt(lists[..last], i, k);
    }
  }

  lemma {:induction false} DeclarationOf(lists: seq<seq<string>>, p: nat) returns (i: nat, k: nat)
    requires p < |Flat(lists)|
    ensures i < |lists| && k < |lists[i]| && p == |Flat(lists[..i])| + k
    decreases |lists|
  {
    var last := |lists| - 1;
    var before := Flat(lists[..last]);
    if p < |before| {
      i, k := DeclarationOf(lists[..last], p);
      assert lists[..last][..i] == lists[..i];
    } else {
      i, k := last, p - |before|;
    }
  }

  /** Where service `i` declares its `j`-th name of a kind. */
  function Place(called: Labelling, inventories: seq<Inventory>, i: nat, kind: Kind, j: nat): nat
    requires i < |inventories|
  {
    |Flat(LabelLists(called, inventories)[..i])| + (Offset(inventories[i], kind) + j)
  }

  lemma LabelInList(called: Labelling, inventories: seq<Inventory>, i: nat, kind: Kind, j: nat)
    requires i < |inventories| && j < |Declared(inventories[i], kind)|
    ensures var labels := LabelLists(called, inventories)[i];
      var k := Offset(inventories[i], kind) + j;
      k < |labels| && labels[k] == called(kind, Declared(inventories[i], kind)[j])
  {
    LabelAt(called, inventories[i], kind, j);
    LabelListOf(called, inventories, i);
  }

  lemma PlaceHolds(called: Labelling, inventories: seq<Inventory>, i: nat, kind: Kind, j: nat)
    requires i < |inventories| && j < |Declared(inventories[i], kind)|
    ensures Place(called, inventories, i, kind, j) < |All(called, inventories)|
    ensures All(called, inventories)[Place(called, inventories, i, kind, j)]
         == Declaration(called(kind, Declared(inventories[i], kind)[j]), i)
  {
    LabelInList(called, inventories, i, kind, j);
    DeclarationAt(LabelLists(called, inventories), i, Offset(inventories[i], kind) + j);
  }

  lemma PlaceOf(called: Labelling, inventories: seq<Inventory>, p: nat) returns (i: nat, kind: Kind, j: nat)
    requires p < |All(called, inventories)|
    ensures i < |inventories| && j < |Declared(inventories[i], kind)| && p == Place(called, inventories, i, kind, j)
    ensures All(called, inventories)[p] == Declaration(called(kind, Declared(inventories[i], kind)[j]), i)
  {
    var k;
    i, k := DeclarationOf(LabelLists(called, inventories), p);
    LabelListOf(called, inventories, i);
    kind, j := LabelOf(called, inventories[i], k);
    PlaceHolds(called, inventories, i, kind, j);
  }

  ghost predicate NoRepeats(names: seq<string>) {
    forall j, k | 0 <= j < k < |names| :: names[j] != names[k]
  }

  /** Within each service and across all of them, nothing of one kind is declared twice. */
  ghost predicate DeclaredOnce(inventories: seq<Inventory>) {
    && (forall i, kind | 0 <= i < |inventories| :: NoRepeats(Declared(inventories[i], kind)))
    && (forall kind :: Unshared(OfKind(inventories, kind)))
  }

  /** Services combine exactly when every declaration, by kind and name, is made once. */
  lemma AcceptedByKindAndName(quote: Quoting, inventories: seq<Inventory>)
    requires Faithful(quote)
    ensures Clashes(All(LabelsBy(quote), inventories)) == [] <==> DeclaredOnce(inventories)
  {
    var called := LabelsBy(quote);
    LabelsAreDistinct(quote);
    AcceptedExactly(All(called, inventories));
    if AllDistinct(All(called, inventories)) { DistinctMeansDeclaredOnce(called, inventories); }
    if DeclaredOnce(inventories) { DeclaredOnceMeansDistinct(called, inventories); }
  }

  lemma DistinctMeansDeclaredOnce(called: Labelling, inventories: seq<Inventory>)
    requires AllDistinct(All(called, inventories))
    ensures DeclaredOnce(inventories)
  {
    forall kind ensures Unshared(OfKind(inventories, kind)) {
      DistinctMeansUnshared(called, inventories, kind);
    }
    forall i, kind | 0 <= i < |inventories| ensures NoRepeats(Declared(inventories[i], kind)) {
      forall j, k | 0 <= j < k < |Declared(inventories[i], kind)|
        ensures Declared(inventories[i], kind)[j] != Declared(inventories[i], kind)[k]
      {
        PlaceHolds(called, inventories, i, kind, j);
        PlaceHolds(called, inventories, i, kind, k);
      }
    }
  }

  lemma DeclaredOnceMeansDistinct(called: Labelling, inventories: seq<Inventory>)
    requires TellsApart(called) && DeclaredOnce(inventories)
    ensures AllDistinct(All(called, inventories))
  {
    var all := All(called, inventories);
    forall p, q | 0 <= p < q < |all| ensures all[p].text != all[q].text {
      var i, kind, j := PlaceOf(called, inventories, p);
      var i', kind', j' := PlaceOf(called, inventories, q);
      if all[p].text == all[q].text {
        var m, n := Declared(inventories[i], kind)[j], Declared(inventories[i'], kind')[j'];
        assert called(kind, m) == called(kind', n);
        SameNameSamePlace(inventories, kind, i, j, i', j');
      }
    }
  }

  lemma SameNameSamePlace(inventories: seq<Inventory>, kind: Kind, i: nat, j: nat, i': nat, j': nat)
    requires DeclaredOnce(inventories) && i < |inventories| && i' < |inventories|
    requires j < |Declared(inventories[i], kind)| && j' < |Declared(inventories[i'], kind)|
    requires Declared(inventories[i], kind)[j] == Declared(inventories[i'], kind)[j']
    ensures i == i' && j == j'
  {
    var declared := OfKind(inventories, kind);
    var n := Declared(inventories[i], kind)[j];
    assert Unshared(declared) && n in declared[i] && n in declared[i'];
    assert NoRepeats(Declared(inventories[i], kind));
  }

  // ---------------------------------------------------------------- routing

  datatype Routing = Routing(capabilities: Capabilities, tools: map<string, nat>, prompts: map<string, nat>, resources: map<string, nat>)

  datatype CombineError = BadMember(index: nat, message: string) | Collisions(clashes: seq<Clash>)

  /** A kind names are routed by; templates are matched instead. */
  predicate Routed(kind: Kind) { !kind.Template? }

  function Table(routing: Routing, kind: Kind): map<string, nat>
    requires Routed(kind)
  {
    match kind
    case Tool => routing.tools
    case Prompt => routing.prompts
    case Resource => routing.resources
  }

  /** `table` sends a name to `i` exactly when service `i` declared it. */
  ghost predicate Agrees(table: map<string, nat>, declared: seq<seq<string>>) {
    && (forall n | n in table :: table[n] < |declared| && n in declared[table[n]])
    && (forall i, n | 0 <= i < |declared| && n in declared[i] :: n in table && table[n] == i)
  }

  function OfKind(inventories: seq<Inventory>, kind: Kind): (declared: seq<seq<string>>)
    ensures |declared| == |inventories|
    ensures forall i | 0 <= i < |inventories| :: declared[i] == Declared(inventories[i], kind)
  {
    seq(|inventories|, i requires 0 <= i < |inventories| => Declared(inventories[i], kind))
  }

  /** No name is declared by two services. */
  ghost predicate Unshared(declared: seq<seq<string>>) {
    forall i, j, n | 0 <= i < j < |declared| && n in declared[i] :: n !in declared[j]
  }

  /** One table of the routing, `extend`ed by one service after another. */
  method FillTable(declared: seq<seq<string>>) returns (table: map<string, nat>)
    ensures Unshared(declared) ==> Agrees(table, declared)
  {
    table := map[];
    for index := 0 to |declared|
      invariant forall n | n in table :: table[n] < index && n in declared[table[n]]
      invariant forall i, n | 0 <= i < index && n in declared[i] :: n in table
    {
      for k := 0 to |declared[index]|
        invariant forall n | n in table :: table[n] <= index && n in declared[table[n]]
        invariant forall i, n | 0 <= i < index && n in declared[i] :: n in table
        invariant forall j | 0 <= j < k :: declared[index][j] in table
      {
        table := table[declared[index][k] := index];
      }
    }
    if Unshared(declared) {
      forall i, n | 0 <= i < |declared| && n in declared[i] ensures table[n] == i {
        assert n in declared[table[n]];
      }
    }
  }

  /** A name two services declare is a label declared twice. */
  lemma SharedMeansClash(called: Labelling, inventories: seq<Inventory>, kind: Kind, i: nat, j: nat, n: string)
    requires i < j < |inventories| && n in Declared(inventories[i], kind) && n in Declared(inventories[j], kind)
    ensures !AllDistinct(All(called, inventories))
  {
    var p :| 0 <= p < |Declared(inventories[i], kind)| && Declared(inventories[i], kind)[p] == n;
    var q :| 0 <= q < |Declared(inventories[j], kind)| && Declared(inventories[j], kind)[q] == n;
    PlaceHolds(called, inventories, i, kind, p);
    PlaceHolds(called, inventories, j, kind, q);
    var all := All(called, inventories);
    var a, b := Place(called, inventories, i, kind, p), Place(called, inventories, j, kind, q);
    assert all[a].text == all[b].text && a != b;
  }

  /** Labels told apart, names of one kind are too. */
  lemma DistinctMeansUnshared(called: Labelling, inventories: seq<Inventory>, kind: Kind)
    requires AllDistinct(All(called, inventories))
    ensures Unshared(OfKind(inventories, kind))
  {
    var declared := OfKind(inventories, kind);
    forall i, j, n | 0 <= i < j < |declared| && n in declared[i] ensures n !in declared[j] {
      if n in declared[j] { SharedMeansClash(called, inventories, kind, i, j, n); }
    }
  }

  function OrElse(first: Option<string>, second: Option<string>): Option<string> {
    if first.Some? then first else second
  }

  /** `merge_capabilities`. */
  function Merged(into: Capabilities, from: Capabilities): Capabilities {
    Capabilities(OrElse(into.tools, from.tools), OrElse(into.prompts, from.prompts), OrElse(into.resources, from.resources),
                 OrElse(into.completions, from.completions), OrElse(into.logging, from.logging))
  }

  function AllMerged(members: seq<Member>): Capabilities {
    if members == [] then NO_CAPABILITIES
    else Merged(AllMerged(members[..|members| - 1]), members[|members| - 1].capabilities)
  }

  /** Everything of kind `kind` the first service that advertises it said about it. */
  lemma {:induction false} CombinedAdvertises(members: seq<Member>, kind: Kind)
    ensures Advertises(AllMerged(members), kind) <==> exists i | 0 <= i < |members| :: Advertises(members[i].capabilities, kind)
    decreases |members|
  {
    if members != [] {
      var last := |members| - 1;
      CombinedAdvertises(members[..last], kind);
      if Advertises(members[last].capabilities, kind) {
      } else if i :| 0 <= i < |members| && Advertises(members[i].capabilities, kind) {
        assert members[..last][i] == members[i];
      }
    }
  }

  /**
   `CombinedServer::new`. It is built exactly when every service can be built and read and no
   two declarations clash, and then routes each name to the service that declared it.
   */
  method New(quote: Quoting, factories: seq<Result<Member, string>>)
    returns (result: Result<Routing, CombineError>, members: seq<Member>, inventories: seq<Inventory>)
    ensures |members| == |inventories| <= |factories|
    ensures forall i | 0 <= i < |members| :: factories[i] == Ok(members[i]) && IsInventory(members[i], inventories[i])
    ensures result.Ok? ==>
      && |members| == |factories| && Clashes(All(LabelsBy(quote), inventories)) == []
      && result.value.capabilities == AllMerged(members)
      && forall kind | Routed(kind) :: Agrees(Table(result.value, kind), OfKind(inventories, kind))
    ensures result.Err? && result.error.Collisions? ==>
      && |members| == |factories| && result.error.clashes == Clashes(All(LabelsBy(quote), inventories)) != []
    ensures result.Err? && result.error.BadMember? ==>
      && result.error.index == |members| < |factories|
      && match factories[|members|]
         case Err(e) => result.error.message == e
         case Ok(member) => exists kind :: Read(member, kind) == Err(result.error.message)
  {
    var called := LabelsBy(quote);
    members, inventories := [], [];
    var capabilities := NO_CAPABILITIES;
    for index := 0 to |factories|
      invariant |members| == |inventories| == index
      invariant forall i | 0 <= i < index :: factories[i] == Ok(members[i]) && IsInventory(members[i], inventories[i])
      invariant capabilities == AllMerged(members)
    {
      if factories[index].Err? { return Err(BadMember(index, factories[index].error)), members, inventories; }
      var member := factories[index].value;
      capabilities := Merged(capabilities, member.capabilities);
      var inventory := TakeInventory(member);
      if inventory.Err? { return Err(BadMember(index, inventory.error)), members, inventories; }
      members, inventories := members + [member], inventories + [inventory.value];
      assert members[..index + 1] == members && members[..index] + [member] == members;
      assert capabilities == AllMerged(members);
    }
    var clashes := CheckCollisions(called, inventories);
    if clashes != [] { return Err(Collisions(clashes)), members, inventories; }
    AcceptedExactly(All(called, inventories));
    DistinctMeansUnshared(called, inventories, Tool);
    DistinctMeansUnshared(called, inventories, Prompt);
    DistinctMeansUnshared(called, inventories, Resource);
    var tools := FillTable(OfKind(inventories, Tool));
    var prompts := FillTable(OfKind(inventories, Prompt));
    var resources := FillTable(OfKind(inventories, Resource));
    result := Ok(Routing(capabilities, tools, prompts, resources));
  }

  // ---------------------------------------------------------------- serving

  /** `CombinedHandler::member` and the call after it, for tools and prompts. */
  function Answer(routing: Routing, members: seq<Member>, kind: Kind, name: string): Result<string, string>
    requires kind.Tool? || kind.Prompt?
  {
    if name in Table(routing, kind) && Table(routing, kind)[name] < |members|
    then members[Table(routing, kind)[name]].answers(kind, name)
    else Err("unknown " + Word(kind) + name)
  }

  /** The first of `members` to answer, or else the last to refuse. */
  function FirstToAnswer(members: seq<Member>, uri: string, last: string): Result<string, string> {
    if members == [] then Err(last)
    else match members[0].answers(Resource, uri)
      case Ok(response) => Ok(response)
      case Err(err) => FirstToAnswer(members[1..], uri, err)
  }

  /** What a URI is answered with. */
  function AnswerRead(routing: Routing, members: seq<Member>, uri: string): Result<string, string>
    requires forall n | n in routing.resources :: routing.resources[n] < |members|
  {
    if uri in routing.resources then members[routing.resources[uri]].answers(Resource, uri)
    else FirstToAnswer(members, uri, "unknown resource: " + uri)
  }

  /** What listing `kind` asks a member for: its first page. */
  function FirstPage(member: Member, kind: Kind): Result<seq<Item>, string> {
    if Advertises(member.capabilities, kind) then member.lists(kind)[0] else Ok([])
  }

  /** `list_tools` and the other three: the members' lists end to end. `origins` says whose each item is. */
  method List(members: seq<Member>, kind: Kind) returns (result: Result<seq<Item>, string>, ghost origins: seq<nat>)
    ensures result.Ok? ==> |origins| == |result.value| && Listed(members, kind, result.value, origins)
    ensures result.Ok? <==> forall i | 0 <= i < |members| :: FirstPage(members[i], kind).Ok?
  {
    var all: seq<Item> := [];
    origins := [];
    for index := 0 to |members|
      invariant |origins| == |all| && Listed(members[..index], kind, all, origins)
      invariant forall i | 0 <= i < index :: FirstPage(members[i], kind).Ok?
    {
      match FirstPage(members[index], kind) {
        case Err(e) => return Err(e), origins;
        case Ok(page) =>
          ListedMore(members, index, kind, all, origins, page);
          all, origins := all + page, origins + Repeat(index, |page|);
      }
    }
    assert members[..|members|] == members;
    result := Ok(all);
  }

  function Repeat(owner: nat, n: nat): seq<nat> { seq(n, _ => owner) }

  /** What is left of a combined list when only the items of member `i` are kept. */
  function Kept(items: seq<Item>, origins: seq<nat>, i: nat): seq<Item>
    requires |items| == |origins|
  {
    if items == [] then []
    else
      var last := |items| - 1;
      Kept(items[..last], origins[..last], i) + if origins[last] == i then [items[last]] else []
  }

  /** Each member's items are its own first page, and the members come one after another. */
  ghost predicate Listed(members: seq<Member>, kind: Kind, items: seq<Item>, origins: seq<nat>)
    requires |origins| == |items|
  {
    && (forall k | 0 <= k < |items| :: origins[k] < |members|)
    && (forall j, k | 0 <= j < k < |items| :: origins[j] <= origins[k])
    && (forall i | 0 <= i < |members| :: FirstPage(members[i], kind) == Ok(Kept(items, origins, i)))
  }

  lemma {:induction false} KeptMore(items: seq<Item>, origins: seq<nat>, page: seq<Item>, owner: nat, i: nat)
    requires |items| == |origins|
    ensures Kept(items + page, origins + Repeat(owner, |page|), i) == Kept(items, origins, i) + if i == owner then page else []
    decreases |page|
  {
    if page == [] {
      assert items + page == items && origins + Repeat(owner, 0) == origins;
    } else {
      var last := |page| - 1;
      KeptMore(items, origins, page[..last], owner, i);
      assert (items + page)[..|items| + last] == items + page[..last];
      assert (origins + Repeat(owner, |page|))[..|items| + last] == origins + Repeat(owner, last);
      assert page == page[..last] + [page[last]];
    }
  }

  lemma {:induction false} NothingKept(items: seq<Item>, origins: seq<nat>, i: nat)
    requires |items| == |origins| && forall k | 0 <= k < |items| :: origins[k] != i
    ensures Kept(items, origins, i) == []
    decreases |items|
  {
    if items != [] { NothingKept(items[..|items| - 1], origins[..|items| - 1], i); }
  }

  lemma ListedMore(members: seq<Member>, owner: nat, kind: Kind, items: seq<Item>, origins: seq<nat>, page: seq<Item>)
    requires owner < |members| && |origins| == |items| && Listed(members[..owner], kind, items, origins)
    requires FirstPage(members[owner], kind) == Ok(page)
    ensures Listed(members[..owner + 1], kind, items + page, origins + Repeat(owner, |page|))
  {
    forall i | 0 <= i <= owner
      ensures FirstPage(members[..owner + 1][i], kind) == Ok(Kept(items + page, origins + Repeat(owner, |page|), i))
    {
      KeptMore(items, origins, page, owner, i);
      if i == owner {
        NothingKept(items, origins, owner);
        assert [] + page == page;
      } else {
        assert FirstPage(members[..owner][i], kind) == Ok(Kept(items, origins, i));
        assert Kept(items, origins, i) + [] == Kept(items, origins, i);
      }
    }
  }

  lemma {:induction false} KeptItem(items: seq<Item>, origins: seq<nat>, k: nat)
    requires |items| == |origins| && k < |items|
    ensures items[k] in Kept(items, origins, origins[k])
    decreases |items|
  {
    if k < |items| - 1 { KeptItem(items[..|items| - 1], origins[..|items| - 1], k); }
  }

  lemma {:induction false} FirstPageIsRead(pages: seq<Result<seq<Item>, string>>)
    requires pages != [] && EveryPage(pages).Ok?
    ensures pages[0].Ok? && NamesOf(pages[0].value) <= EveryPage(pages).value
    decreases |pages|
  {
    if |pages| > 1 {
      FirstPageIsRead(pages[..|pages| - 1]);
    } else {
      assert pages[..0] == [];
    }
  }

  /** Every tool, prompt or resource on a combined list is answered by the member that listed it. */
  lemma ListedIsServed(routing: Routing, members: seq<Member>, inventories: seq<Inventory>, kind: Kind,
                       items: seq<Item>, origins: seq<nat>, k: nat)
    requires Routed(kind) && Agrees(Table(routing, kind), OfKind(inventories, kind))
    requires |members| == |inventories| && forall i | 0 <= i < |members| :: IsInventory(members[i], inventories[i])
    requires |origins| == |items| && Listed(members, kind, items, origins) && k < |items|
    ensures items[k].name in Table(routing, kind) && Table(routing, kind)[items[k].name] == origins[k]
    ensures kind.Tool? || kind.Prompt? ==>
      Answer(routing, members, kind, items[k].name) == members[origins[k]].answers(kind, items[k].name)
    ensures kind.Resource? ==>
      && (forall n | n in routing.resources :: routing.resources[n] < |members|)
      && AnswerRead(routing, members, items[k].name) == members[origins[k]].answers(kind, items[k].name)
  {
    var i := origins[k];
    KeptItem(items, origins, k);
    assert Read(members[i], kind) == Ok(Declared(inventories[i], kind));
    if Advertises(members[i].capabilities, kind) {
      var page := members[i].lists(kind)[0].value;
      FirstPageIsRead(members[i].lists(kind));
      assert items[k] in page;
      var p :| 0 <= p < |page| && page[p] == items[k];
      assert NamesOf(page)[p] == items[k].name;
      assert items[k].name in Declared(inventories[i], kind);
    }
  }

  /** The list of a kind is cut off: a member has more of it than its first page. */
  ghost predicate Paged(member: Member, kind: Kind) {
    Advertises(member.capabilities, kind) && exists p | 1 <= p < |member.lists(kind)| :: member.lists(kind)[p] != Ok([])
  }

  lemma {:induction false} OnePageIsAll(pages: seq<Result<seq<Item>, string>>)
    requires pages != [] && EveryPage(pages).Ok?
    ensures pages[0].Ok?
    ensures EveryPage(pages).value == NamesOf(pages[0].value) <==> forall p | 1 <= p < |pages| :: pages[p] == Ok([])
    decreases |pages|
  {
    FirstPageIsRead(pages);
    if |pages| > 1 {
      var last := |pages| - 1;
      OnePageIsAll(pages[..last]);
      FirstPageIsRead(pages[..last]);
      assert pages[..last][0] == pages[0];
      assert pages[last].Ok?;
      if pages[last] == Ok([]) {
        assert NamesOf(pages[last].value) == [];
        assert forall p | 1 <= p < last :: pages[..last][p] == pages[p];
      } else {
        assert |EveryPage(pages).value| > |NamesOf(pages[0].value)|;
      }
    } else {
      assert pages[..0] == [];
    }
  }

  /**
   What a combined list holds of a member is all that member declared exactly when it does not
   go on past its first page: the inventory reads every page, the list only the first.
   */
  lemma EverythingIsListedExactly(members: seq<Member>, kind: Kind, items: seq<Item>, origins: seq<nat>,
                                  inventory: Inventory, i: nat)
    requires |origins| == |items| && Listed(members, kind, items, origins)
    requires i < |members| && IsInventory(members[i], inventory)
    ensures NamesOf(Kept(items, origins, i)) == Declared(inventory, kind) <==> !Paged(members[i], kind)
  {
    assert Read(members[i], kind) == Ok(Declared(inventory, kind));
    assert FirstPage(members[i], kind) == Ok(Kept(items, origins, i));
    if Advertises(members[i].capabilities, kind) { OnePageIsAll(members[i].lists(kind)); }
  }

  lemma OneMorePage(pages: seq<Result<seq<Item>, string>>, names: seq<string>, item: Item)
    requires EveryPage(pages) == Ok(names)
    ensures EveryPage(pages + [Ok([item])]) == Ok(names + [item.name])
  {
    assert (pages + [Ok([item])])[..|pages|] == pages;
    assert NamesOf([item]) == [item.name];
  }

  /** A service with one tool a page. */
  const ONE_A_PAGE: Pages := [Ok([Item("first", "")]), Ok([Item("second", "")])]

  const PAGED_MEMBER := Member(
    NO_CAPABILITIES.(tools := Some("")), kind => ONE_A_PAGE, (kind, name) => Err(name), prefix => Ok([]))

  /** Its second tool is declared, and so routed, and on no combined list. */
  lemma LaterPagesAreLost()
    ensures IsInventory(PAGED_MEMBER, Inventory(["first", "second"], [], [], []))
    ensures Listed([PAGED_MEMBER], Tool, [Item("first", "")], [0])
  {
    OneMorePage([], [], Item("first", ""));
    OneMorePage([] + [Ok([Item("first", "")])], [] + ["first"], Item("second", ""));
    assert ONE_A_PAGE == [] + [Ok([Item("first", "")])] + [Ok([Item("second", "")])];
    assert PAGED_MEMBER.lists(Tool) == ONE_A_PAGE;
    assert [] + ["first"] + ["second"] == ["first", "second"];
    assert EveryPage(ONE_A_PAGE) == Ok(["first", "second"]);
    forall kind ensures Read(PAGED_MEMBER, kind) == Ok(Declared(Inventory(["first", "second"], [], [], []), kind)) {
      assert Advertises(PAGED_MEMBER.capabilities, kind) <==> kind.Tool?;
    }
    var items := [Item("first", "")];
    assert Kept(items, [0], 0) == [] + items == items;
    assert FirstPage([PAGED_MEMBER][0], Tool) == Ok(items);
  }

  /** `read_resource`. */
  method ReadResource(routing: Routing, members: seq<Member>, uri: string) returns (result: Result<string, string>)
    requires forall n | n in routing.resources :: routing.resources[n] < |members|
    ensures result == AnswerRead(routing, members, uri)
    ensures uri in routing.resources ==> result == members[routing.resources[uri]].answers(Resource, uri)
    ensures uri !in routing.resources && result.Ok? ==>
      exists i | 0 <= i < |members| ::
        && members[i].answers(Resource, uri) == result
        && forall j | 0 <= j < i :: members[j].answers(Resource, uri).Err?
    ensures uri !in routing.resources && result.Err? ==>
      && (forall i | 0 <= i < |members| :: members[i].answers(Resource, uri).Err?)
      && result == if members == [] then Err("unknown resource: " + uri) else members[|members| - 1].answers(Resource, uri)
  {
    if uri in routing.resources { return members[routing.resources[uri]].answers(Resource, uri); }
    var last := "unknown resource: " + uri;
    for index := 0 to |members|
      invariant forall i | 0 <= i < index :: members[i].answers(Resource, uri).Err?
      invariant Err(last) == if index == 0 then Err("unknown resource: " + uri) else members[index - 1].answers(Resource, uri)
      invariant FirstToAnswer(members[index..], uri, last) == FirstToAnswer(members, uri, "unknown resource: " + uri)
    {
      assert members[index..][1..] == members[index + 1..];
      match members[index].answers(Resource, uri)
      case Ok(response) => return Ok(response);
      case Err(err) => last := err;
    }
    result := Err(last);
  }

  /** `complete`: the first member with anything to say, or else the first error, or else nothing. */
  method Complete(members: seq<Member>, prefix: string) returns (result: Result<seq<string>, string>)
    ensures result.Ok? && result.value != [] ==>
      exists i | 0 <= i < |members| ::
        && members[i].completes(prefix) == result
        && forall j | 0 <= j < i :: members[j].completes(prefix).Ok? ==> members[j].completes(prefix).value == []
    ensures result.Err? ==>
      && (forall i | 0 <= i < |members| :: members[i].completes(prefix).Ok? ==> members[i].completes(prefix).value == [])
      && exists i | 0 <= i < |members| ::
           && members[i].completes(prefix) == result
           && forall j | 0 <= j < i :: members[j].completes(prefix).Ok?
    ensures result == Ok([]) <==> forall i | 0 <= i < |members| :: members[i].completes(prefix) == Ok([])
  {
    var firstError: Option<string> := None;
    for index := 0 to |members|
      invariant forall i | 0 <= i < index :: members[i].completes(prefix).Ok? ==> members[i].completes(prefix).value == []
      invariant firstError.None? ==> forall i | 0 <= i < index :: members[i].completes(prefix).Ok?
      invariant firstError.Some? ==> exists i | 0 <= i < index ::
        && members[i].completes(prefix) == Err(firstError.value)
        && forall j | 0 <= j < i :: members[j].completes(prefix).Ok?
    {
      match members[index].completes(prefix) {
        case Ok(values) =>
          if values != [] { return Ok(values); }
        case Err(err) =>
          if firstError.None? { firstError := Some(err); }
      }
    }
    result := if firstError.Some? then Err(firstError.value) else Ok([]);
  }
}
