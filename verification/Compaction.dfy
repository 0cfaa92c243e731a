// Compaction of a raw accessibility description into the node tree agents see:
// wrappers without information are replaced by their children, decoration inside
// labelled controls is dropped, repeated siblings are merged.
module Compaction {
  import opened Common

  // ---------- raw descriptions and nodes ----------

  datatype Frame = Frame(x: real, y: real, w: real, h: real)

  // The own fields of an element as the raw object has them: for each text the
  // values under the keys that may hold it, in the order they are tried, and the
  // explicit interactable flag.
  datatype Fields = Fields(
    roles: seq<string>, labels: seq<string>, values: seq<string>, placeholders: seq<string>, identifiers: seq<string>,
    frame: Option<Frame>, flagged: bool, disabled: bool)

  // A decoded value: an array, an object with its nested values, or neither.
  datatype Raw = RArr(items: seq<Raw>) | RObj(fields: Fields, kids: seq<Raw>) | RScalar

  datatype Own = Own(
    role: string, labelText: string, value: string, placeholder: string, identifier: string,
    frame: Option<Frame>, interactable: bool, disabled: bool)

  datatype Node = Node(own: Own, children: seq<Node>)

  // ---------- reading texts ----------

  predicate IsSpace(c: char) {
    || c == ' ' || '\t' <= c <= '\r' || c == '\U{0085}' || c == '\U{00A0}' || c == '\U{1680}'
    || '\U{2000}' <= c <= '\U{200A}' || c == '\U{2028}' || c == '\U{2029}' || c == '\U{202F}'
    || c == '\U{205F}' || c == '\U{3000}'
  }

  function Trim(s: string): (r: string)
    ensures |r| <= |s| && (|r| == |s| ==> r == s)
    ensures r != [] ==> !IsSpace(r[0]) && !IsSpace(r[|r| - 1])
    ensures forall c :: c in r ==> c in s
    decreases |s|
  {
    if s == [] then []
    else if IsSpace(s[0]) then Trim(s[1..])
    else if IsSpace(s[|s| - 1]) then Trim(s[..|s| - 1])
    else s
  }

  // A text as it is taken: without blanks around it, and a null is nothing.
  function Read(s: string): (r: string)
    ensures |r| <= |s| && (|r| == |s| ==> r == s)
    ensures forall c :: c in r ==> c in s
  {
    if Trim(s) == "(null)" then "" else Trim(s)
  }

  // The first candidate that holds something.
  function FirstString(candidates: seq<string>): string {
    if candidates == [] then ""
    else if Read(candidates[0]) != "" then Read(candidates[0])
    else FirstString(candidates[1..])
  }

  // All of s outside i..j is blank.
  ghost predicate BlankAround(s: string, i: nat, j: nat) {
    forall k :: 0 <= k < |s| && !(i <= k < j) ==> IsSpace(s[k])
  }

  lemma BlankBefore(s: string, i: nat, j: nat)
    requires s != [] && IsSpace(s[0]) && i <= j <= |s| - 1 && BlankAround(s[1..], i, j)
    ensures BlankAround(s, i + 1, j + 1) && s[1..][i..j] == s[i + 1..j + 1]
  {
    hide IsSpace;
    assert s[1..][i..j] == s[i + 1..j + 1];
    forall k | 0 <= k < |s| && !(i + 1 <= k < j + 1) ensures IsSpace(s[k]) {
      if k > 0 {
        assert s[1..][k - 1] == s[k];
      }
    }
  }

  lemma BlankBehind(s: string, i: nat, j: nat)
    requires s != [] && IsSpace(s[|s| - 1]) && i <= j <= |s| - 1 && BlankAround(s[..|s| - 1], i, j)
    ensures BlankAround(s, i, j) && s[..|s| - 1][i..j] == s[i..j]
  {
    hide IsSpace;
    assert s[..|s| - 1][i..j] == s[i..j];
    forall k | 0 <= k < |s| && !(i <= k < j) ensures IsSpace(s[k]) {
      if k < |s| - 1 {
        assert s[..|s| - 1][k] == s[k];
      }
    }
  }

  /** Trimming takes the blanks at either end and nothing else. */
  lemma {:induction false} TrimMeans(s: string) returns (i: nat, j: nat)
    ensures i <= j <= |s| && Trim(s) == s[i..j] && BlankAround(s, i, j)
    decreases |s|
  {
    hide IsSpace, BlankAround;
    if s != [] && IsSpace(s[0]) {
      i, j := TrimMeans(s[1..]);
      BlankBefore(s, i, j);
      i, j := i + 1, j + 1;
    } else if s != [] && IsSpace(s[|s| - 1]) {
      i, j := TrimMeans(s[..|s| - 1]);
      BlankBehind(s, i, j);
    } else {
      i, j := 0, |s|;
      assert s[0..|s|] == s;
      NothingAround(s);
    }
  }

  lemma NothingAround(s: string)
    ensures BlankAround(s, 0, |s|)
  {
  }

  /** A text is the first candidate that holds more than blanks and nulls; without
      one it is empty. */
  lemma {:induction false} FirstStringMeans(candidates: seq<string>, i: nat)
    requires i < |candidates| && forall j :: 0 <= j < i ==> Trim(candidates[j]) == "" || Trim(candidates[j]) == "(null)"
    ensures Trim(candidates[i]) != "" && Trim(candidates[i]) != "(null)" ==> FirstString(candidates) == Trim(candidates[i])
    ensures i == |candidates| - 1 && (Trim(candidates[i]) == "" || Trim(candidates[i]) == "(null)") ==> FirstString(candidates) == ""
  {
    if i > 0 {
      assert candidates[0] in candidates;
      FirstStringMeans(candidates[1..], i - 1);
    }
  }

  lemma ReadTwice(s: string)
    ensures Read(Read(s)) == Read(s)
  {
  }

  // What has been read reads the same again.
  lemma {:induction false} FirstStringIsRead(candidates: seq<string>)
    ensures Read(FirstString(candidates)) == FirstString(candidates)
  {
    if candidates != [] {
      ReadTwice(candidates[0]);
      FirstStringIsRead(candidates[1..]);
    }
  }

  lemma FirstOfOne(s: string)
    ensures FirstString([s]) == Read(s)
  {
    assert [s][1..] == [];
  }

  // ---------- roles ----------

  // What follows the last dot.
  function AfterLastDot(s: string): (r: string)
    ensures '.' !in r && |r| <= |s|
    ensures '.' !in s ==> r == s
  {
    if '.' !in s then s
    else if s[|s| - 1] == '.' then []
    else AfterLastDot(s[..|s| - 1]) + [s[|s| - 1]]
  }

  // It is the end of the string, and directly behind a dot if there is one.
  lemma {:induction false} AfterLastDotMeans(s: string)
    ensures var r := AfterLastDot(s);
      '.' !in r && r == s[|s| - |r|..] && (|r| < |s| ==> s[|s| - |r| - 1] == '.')
  {
    var k := |s| - 1;
    if '.' in s && s[k] != '.' {
      var front, q := s[..k], AfterLastDot(s[..k]);
      AfterLastDotMeans(front);
      assert AfterLastDot(s) == q + [s[k]];
      assert q + [s[k]] == s[k - |q|..];
    }
  }

  function NormalizeRole(role: string): string {
    AfterLastDot(if "AX" <= role then role[2..] else role)
  }

  predicate InteractableRole(role: string) {
    role in {
      "Button", "Link", "TextField", "SecureTextField", "SearchField", "Switch", "Slider", "Cell", "Key", "TabBarItem",
      "SegmentedControl", "Stepper", "PageIndicator", "Picker", "PickerWheel", "CheckBox", "RadioButton", "MenuItem",
      "TextView", "DatePicker" }
  }

  function OwnOf(f: Fields): Own {
    var role := NormalizeRole(FirstString(f.roles));
    Own(role, FirstString(f.labels), FirstString(f.values), FirstString(f.placeholders), FirstString(f.identifiers),
        f.frame, f.flagged || InteractableRole(role), f.disabled)
  }

  // ---------- compaction ----------

  predicate Contains(s: string, sub: string) {
    sub <= s || (s != [] && Contains(s[1..], sub))
  }

  /** Containing is having the other string as a stretch somewhere. */
  lemma {:induction false} ContainsMeans(s: string, sub: string)
    ensures Contains(s, sub) <==> exists i :: 0 <= i <= |s| && sub <= s[i..]
  {
    assert s[0..] == s;
    if s != [] {
      ContainsMeans(s[1..], sub);
      if i :| 0 <= i <= |s[1..]| && sub <= s[1..][i..] {
        assert s[1..][i..] == s[i + 1..];
      }
      if i :| 0 < i <= |s| && sub <= s[i..] {
        assert s[1..][i - 1..] == s[i..];
      }
    }
  }

  predicate RedundantWithin(n: Node, parentLabel: string) {
    && !n.own.interactable && n.own.value == "" && n.children == []
    && (n.own.role == "Image" || n.own.labelText == "" || Contains(parentLabel, n.own.labelText))
  }

  predicate Prunes(parent: Own) {
    parent.interactable && parent.labelText != ""
  }

  function Prune(parent: Own, kids: seq<Node>): seq<Node> {
    if kids == [] then []
    else
      var last := kids[|kids| - 1];
      Prune(parent, kids[..|kids| - 1]) + if Prunes(parent) && RedundantWithin(last, parent.labelText) then [] else [last]
  }

  function Dedupe(nodes: seq<Node>): seq<Node> {
    if nodes == [] then []
    else
      var before, last := Dedupe(nodes[..|nodes| - 1]), nodes[|nodes| - 1];
      if last in before then before else before + [last]
  }

  predicate IsNoise(own: Own, children: seq<Node>) {
    && own.value == "" && own.placeholder == "" && !own.interactable
    && own.role in {"", "Other", "Application", "Window", "Group"}
    && if own.identifier != "" then own.labelText == own.identifier && children != [] else own.labelText == ""
  }

  function CompactAll(vs: seq<Raw>): seq<Node> {
    if vs == [] then [] else Compact(vs[0]) + CompactAll(vs[1..])
  }

  function Compact(v: Raw): seq<Node> {
    match v
    case RArr(items) => CompactAll(items)
    case RObj(fields, kids) => CompactObject(OwnOf(fields), CompactAll(kids))
    case RScalar => []
  }

  // An element, given what its nested values compact to.
  function CompactObject(own: Own, kids: seq<Node>): seq<Node> {
    var children := Dedupe(Prune(own, kids));
    if IsNoise(own, children) then children else [Node(own, children)]
  }

  function CompactTree(v: Raw): seq<Node> {
    Dedupe(Compact(v))
  }

  // ---------- the in-place filters ----------

  /** The filter over the children of a labelled control, compacting the slice in
      place; `n` of its elements remain. */
  method PruneDecoration(parent: Own, kids: array<Node>) returns (n: nat)
    modifies kids
    ensures n <= kids.Length && kids[..n] == Prune(parent, old(kids[..]))
  {
    hide Prune, RedundantWithin;
    ghost var was := kids[..];
    PruneLittle(parent);
    if !Prunes(parent) {
      PruneNothing(parent, was);
      return kids.Length;
    }
    n := 0;
    var i := 0;
    while i < kids.Length
      invariant n <= i <= kids.Length
      invariant |was| == kids.Length && forall k :: i <= k < kids.Length ==> kids[k] == was[k]
      invariant kids[..n] == Prune(parent, was[..i])
    {
      assert was[..i + 1][..i] == was[..i];
      PruneLast(parent, was[..i + 1]);
      var c := kids[i];
      if !RedundantWithin(c, parent.labelText) {
        kids[n] := c;
        n := n + 1;
      }
      i := i + 1;
    }
    assert was[..i] == was;
  }

  lemma {:induction false} PruneNothing(parent: Own, kids: seq<Node>)
    requires !Prunes(parent)
    ensures Prune(parent, kids) == kids
  {
    if kids != [] {
      PruneNothing(parent, kids[..|kids| - 1]);
    }
  }

  /** First occurrences stay, in place, with a set of the nodes seen. */
  method DedupeSiblings(nodes: array<Node>) returns (n: nat)
    modifies nodes
    ensures n <= nodes.Length && nodes[..n] == Dedupe(old(nodes[..]))
  {
    ghost var was := nodes[..];
    n := 0;
    var seen: set<Node> := {};
    var i := 0;
    while i < nodes.Length
      invariant n <= i <= nodes.Length
      invariant |was| == nodes.Length && forall k :: i <= k < nodes.Length ==> nodes[k] == was[k]
      invariant nodes[..n] == Dedupe(was[..i])
      invariant forall x :: x in seen <==> x in nodes[..n]
    {
      assert was[..i + 1][..i] == was[..i];
      var c := nodes[i];
      if c !in seen {
        seen := seen + {c};
        nodes[n] := c;
        n := n + 1;
      }
      i := i + 1;
    }
    assert was[..i] == was;
  }

  // ---------- facts about the filters ----------

  ghost predicate Distinct(nodes: seq<Node>) {
    forall i, j :: 0 <= i < j < |nodes| ==> nodes[i] != nodes[j]
  }

  lemma {:induction false} DedupeFacts(nodes: seq<Node>)
    ensures Distinct(Dedupe(nodes))
    ensures forall x :: x in Dedupe(nodes) <==> x in nodes
    ensures Distinct(nodes) ==> Dedupe(nodes) == nodes
  {
    if nodes != [] {
      var front, last := nodes[..|nodes| - 1], nodes[|nodes| - 1];
      DedupeFacts(front);
      assert nodes == front + [last];
    }
  }

  // What is dropped as decoration of the parent.
  predicate IsDecoration(parent: Own, x: Node) {
    Prunes(parent) && RedundantWithin(x, parent.labelText)
  }

  lemma {:induction false} PruneMembers(parent: Own, kids: seq<Node>)
    ensures forall x :: x in Prune(parent, kids) <==> x in kids && !IsDecoration(parent, x)
  {
    hide IsDecoration, RedundantWithin, Prunes;
    if kids != [] {
      var front, last := kids[..|kids| - 1], kids[|kids| - 1];
      PruneMembers(parent, front);
      PruneLast(parent, kids);
      assert kids == front + [last];
    }
  }

  lemma PruneLast(parent: Own, kids: seq<Node>)
    requires kids != []
    ensures var front, last := kids[..|kids| - 1], kids[|kids| - 1];
      Prune(parent, kids) == Prune(parent, front) + if IsDecoration(parent, last) then [] else [last]
  {
    hide RedundantWithin, Prunes;
  }

  lemma PruneLittle(parent: Own)
    ensures Prune(parent, []) == []
  {
  }

  lemma {:induction false} PruneKeepsAll(parent: Own, kids: seq<Node>)
    requires forall x :: x in kids ==> !IsDecoration(parent, x)
    ensures Prune(parent, kids) == kids
  {
    hide IsDecoration, RedundantWithin, Prunes;
    if kids != [] {
      PruneKeepsAll(parent, kids[..|kids| - 1]);
      PruneLast(parent, kids);
      assert !IsDecoration(parent, kids[|kids| - 1]);
    }
  }

  lemma PruneFacts(parent: Own, kids: seq<Node>)
    ensures forall x :: x in Prune(parent, kids) <==> x in kids && !IsDecoration(parent, x)
    ensures (forall x :: x in kids ==> !IsDecoration(parent, x)) ==> Prune(parent, kids) == kids
  {
    hide IsDecoration, Prune;
    PruneMembers(parent, kids);
    if forall x :: x in kids ==> !IsDecoration(parent, x) {
      PruneKeepsAll(parent, kids);
    }
  }

  // ---------- what a compacted tree looks like ----------

  // Own fields as they are taken from a description.
  ghost predicate Taken(o: Own) {
    && '.' !in o.role && (InteractableRole(o.role) ==> o.interactable)
    && Read(o.labelText) == o.labelText && Read(o.value) == o.value
    && Read(o.placeholder) == o.placeholder && Read(o.identifier) == o.identifier
  }

  lemma OwnIsTaken(f: Fields)
    ensures Taken(OwnOf(f))
  {
    FirstStringIsRead(f.labels);
    FirstStringIsRead(f.values);
    FirstStringIsRead(f.placeholders);
    FirstStringIsRead(f.identifiers);
  }

  // Nothing in it is noise, decoration of its parent or a repeated sibling.
  ghost predicate Canonical(n: Node) {
    && !IsNoise(n.own, n.children)
    && Distinct(n.children)
    && (Prunes(n.own) ==> forall c :: c in n.children ==> !RedundantWithin(c, n.own.labelText))
    && Taken(n.own)
    && (forall c :: c in n.children ==> Canonical(c))
  }

  ghost predicate CanonicalForest(nodes: seq<Node>) {
    Distinct(nodes) && forall n :: n in nodes ==> Canonical(n)
  }

  lemma CompactObjectCanonical(f: Fields, kids: seq<Node>)
    requires forall n :: n in kids ==> Canonical(n)
    ensures forall n :: n in CompactObject(OwnOf(f), kids) ==> Canonical(n)
  {
    hide Taken;
    OwnIsTaken(f);
    PruneFacts(OwnOf(f), kids);
    DedupeFacts(Prune(OwnOf(f), kids));
  }

  lemma {:induction false} CompactCanonical(v: Raw)
    ensures forall n :: n in Compact(v) ==> Canonical(n)
  {
    match v {
      case RArr(items) => CompactAllCanonical(items);
      case RObj(fields, kids) =>
        CompactAllCanonical(kids);
        CompactObjectCanonical(fields, CompactAll(kids));
      case RScalar =>
    }
  }

  lemma {:induction false} CompactAllCanonical(vs: seq<Raw>)
    ensures forall n :: n in CompactAll(vs) ==> Canonical(n)
  {
    if vs != [] {
      CompactCanonical(vs[0]);
      CompactAllCanonical(vs[1..]);
    }
  }

  /** No surviving node is noise or decoration, siblings are pairwise distinct,
      at every depth. */
  lemma CompactTreeIsCanonical(v: Raw)
    ensures CanonicalForest(CompactTree(v))
  {
    CompactCanonical(v);
    DedupeFacts(Compact(v));
  }

  // ---------- compacting again ----------

  // A node tree written back as a raw description, each field under a key it is
  // read from.
  function Embed(n: Node): Raw {
    RObj(FieldsOf(n.own), EmbedAll(n.children))
  }

  function FieldsOf(o: Own): Fields {
    Fields([o.role], [o.labelText], [o.value], [o.placeholder], [o.identifier], o.frame, o.interactable, o.disabled)
  }

  function EmbedAll(nodes: seq<Node>): seq<Raw> {
    if nodes == [] then [] else [Embed(nodes[0])] + EmbedAll(nodes[1..])
  }

  // A role as it comes out when it is read and normalised once more.
  function Reread(role: string): string {
    NormalizeRole(Read(role))
  }

  lemma EmbeddedOwn(o: Own)
    requires Taken(o)
    ensures var o' := OwnOf(FieldsOf(o));
      o' == o.(role := Reread(o.role), interactable := o.interactable || InteractableRole(Reread(o.role)))
    ensures Reread(o.role) == o.role ==> OwnOf(FieldsOf(o)) == o
  {
    FirstOfOne(o.role);
    FirstOfOne(o.labelText);
    FirstOfOne(o.value);
    FirstOfOne(o.placeholder);
    FirstOfOne(o.identifier);
  }

  // No role in the tree changes when it is read again.
  ghost predicate Settled(n: Node) {
    Reread(n.own.role) == n.own.role && forall c :: c in n.children ==> Settled(c)
  }

  lemma {:induction false} RecompactNode(n: Node)
    requires Canonical(n) && Settled(n)
    ensures Compact(Embed(n)) == [n]
  {
    hide Taken, Reread;
    RecompactAll(n.children);
    EmbeddedOwn(n.own);
    PruneFacts(n.own, n.children);
    DedupeFacts(n.children);
  }

  lemma {:induction false} RecompactAll(nodes: seq<Node>)
    requires forall n :: n in nodes ==> Canonical(n) && Settled(n)
    ensures CompactAll(EmbedAll(nodes)) == nodes
  {
    hide Canonical, Settled, Embed, Compact;
    if nodes != [] {
      var h, t := nodes[0], nodes[1..];
      RecompactNode(h);
      RecompactAll(t);
      assert EmbedAll(nodes) == [Embed(h)] + EmbedAll(t);
      assert EmbedAll(nodes)[1..] == EmbedAll(t);
      assert nodes == [h] + t;
    }
  }

  // Reading a role again never makes it longer, and shorter if it changes it.
  lemma RereadShortens(role: string)
    requires '.' !in role
    ensures |Reread(role)| <= |role|
    ensures Reread(role) != role ==> |Reread(role)| < |role|
  {
    var r := Read(role);
    assert '.' !in r;
    var t := if "AX" <= r then r[2..] else r;
    assert '.' !in t;
  }

  // The length of all roles of a tree together.
  function RoleLength(n: Node): nat {
    |n.own.role| + RoleLengths(n.children)
  }

  function RoleLengths(nodes: seq<Node>): nat {
    if nodes == [] then 0 else RoleLengths(nodes[..|nodes| - 1]) + RoleLength(nodes[|nodes| - 1])
  }

  lemma {:induction false} RoleLengthsAppend(a: seq<Node>, b: seq<Node>)
    ensures RoleLengths(a + b) == RoleLengths(a) + RoleLengths(b)
  {
    if b == [] {
      assert a + b == a;
    } else {
      assert (a + b)[..|a + b| - 1] == a + b[..|b| - 1];
      RoleLengthsAppend(a, b[..|b| - 1]);
    }
  }

  lemma RoleLengthsLast(nodes: seq<Node>, last: Node)
    ensures RoleLengths(nodes + [last]) == RoleLengths(nodes) + RoleLength(last)
  {
    hide RoleLength;
    assert (nodes + [last])[..|nodes|] == nodes;
  }

  lemma {:induction false} PruneShortens(own: Own, kids: seq<Node>)
    ensures RoleLengths(Prune(own, kids)) <= RoleLengths(kids)
  {
    hide Prune, RoleLength, RoleLengths, IsDecoration;
    if kids == [] {
      PruneLittle(own);
    } else {
      var front, last := kids[..|kids| - 1], kids[|kids| - 1];
      PruneShortens(own, front);
      PruneLast(own, kids);
      assert kids == front + [last];
      RoleLengthsLast(front, last);
      RoleLengthsLast(Prune(own, front), last);
      assert Prune(own, front) + [] == Prune(own, front);
    }
  }

  lemma DedupeLast(nodes: seq<Node>)
    requires nodes != []
    ensures var front, last := nodes[..|nodes| - 1], nodes[|nodes| - 1];
      Dedupe(nodes) == Dedupe(front) || Dedupe(nodes) == Dedupe(front) + [last]
  {
  }

  lemma {:induction false} DedupeShortens(kids: seq<Node>)
    ensures RoleLengths(Dedupe(kids)) <= RoleLengths(kids)
  {
    if kids != [] {
      hide Dedupe, RoleLength, RoleLengths;
      var front, last := kids[..|kids| - 1], kids[|kids| - 1];
      DedupeShortens(front);
      DedupeLast(kids);
      assert kids == front + [last];
      RoleLengthsLast(front, last);
      RoleLengthsLast(Dedupe(front), last);
    }
  }

  lemma ObjectLength(own: Own, kids: seq<Node>)
    ensures RoleLengths(CompactObject(own, kids)) <= |own.role| + RoleLengths(kids)
  {
    PruneShortens(own, kids);
    DedupeShortens(Prune(own, kids));
    var children := Dedupe(Prune(own, kids));
    assert [Node(own, children)][..0] == [];
    assert RoleLengths([Node(own, children)]) == RoleLength(Node(own, children));
  }

  lemma {:induction false} RecompactShortens(n: Node)
    requires Canonical(n)
    ensures RoleLengths(Compact(Embed(n))) <= RoleLength(n)
    ensures !Settled(n) ==> RoleLengths(Compact(Embed(n))) < RoleLength(n)
  {
    hide CompactObject, Reread;
    RecompactAllShortens(n.children);
    EmbeddedOwn(n.own);
    RereadShortens(n.own.role);
    ObjectLength(OwnOf(FieldsOf(n.own)), CompactAll(EmbedAll(n.children)));
  }

  lemma {:induction false} RecompactAllShortens(nodes: seq<Node>)
    requires forall n :: n in nodes ==> Canonical(n)
    ensures RoleLengths(CompactAll(EmbedAll(nodes))) <= RoleLengths(nodes)
    ensures (exists n :: n in nodes && !Settled(n)) ==> RoleLengths(CompactAll(EmbedAll(nodes))) < RoleLengths(nodes)
  {
    if nodes != [] {
      var h, t := nodes[0], nodes[1..];
      RecompactShortens(h);
      RecompactAllShortens(t);
      assert EmbedAll(nodes)[1..] == EmbedAll(t) && EmbedAll(nodes)[0] == Embed(h);
      RoleLengthsAppend(Compact(Embed(h)), CompactAll(EmbedAll(t)));
      assert nodes == [h] + t;
      RoleLengthsAppend([h], t);
      assert [h][..0] == [];
      assert RoleLengths([h]) == RoleLength(h);
    }
  }

  /** Compacting a compacted tree changes nothing exactly when reading any of its
      roles again - trimming it, dropping "(null)", normalising it - leaves it as it
      is: the first reading did each of these once, and in that order. */
  lemma RecompactionIsIdentityIff(v: Raw)
    ensures var out := CompactTree(v);
      CompactTree(RArr(EmbedAll(out))) == out <==> forall n :: n in out ==> Settled(n)
  {
    var out := CompactTree(v);
    CompactTreeIsCanonical(v);
    var again := CompactAll(EmbedAll(out));
    assert Compact(RArr(EmbedAll(out))) == again;
    if forall n :: n in out ==> Settled(n) {
      RecompactAll(out);
      DedupeFacts(out);
    } else {
      RecompactAllShortens(out);
      DedupeShortens(again);
    }
  }

  // A control whose role is this, read once and then again.
  lemma RoleReadAgain(role: string)
    requires var r := NormalizeRole(Read(role)); r != "" && Reread(r) != r
    ensures exists v :: CompactTree(RArr(EmbedAll(CompactTree(v)))) != CompactTree(v)
  {
    hide InteractableRole, NormalizeRole, Read;
    var f := Fields([role], [], [], [], [], None, true, false);
    FirstOfOne(role);
    var v, n := RObj(f, []), Node(OwnOf(f), []);
    assert n.own.role == NormalizeRole(Read(role)) && n.own.interactable;
    assert Dedupe(Prune(n.own, [])) == [];
    assert Compact(v) == [n];
    DedupeFacts([n]);
    assert CompactTree(v) == [n] && !Settled(n);
    assert n in CompactTree(v);
    RecompactionIsIdentityIff(v);
  }

  lemma PrefixReadAgain()
    ensures Reread("AXAX") == "AX" && Reread("AX") == ""
  {
    assert "AXAX"[2..] == "AX" && "AX"[2..] == "";
    assert Trim("AXAX") == "AXAX" && Trim("AX") == "AX";
  }

  lemma BlankReadAgain()
    ensures Reread("AX B") == " B" && Reread(" B") == "B"
  {
    assert "AX B"[2..] == " B" && " B"[1..] == "B";
    assert Trim("AX B") == "AX B" && Trim("B") == "B" && Trim(" B") == "B";
  }

  // A doubled prefix is stripped once and then again; a blank behind the prefix is
  // trimmed only the second time.
  lemma SomeRolesChangeAgain()
    ensures Reread("AXAX") == "AX" && Reread("AX") == ""
    ensures Reread("AX B") == " B" && Reread(" B") == "B"
    ensures exists v :: CompactTree(RArr(EmbedAll(CompactTree(v)))) != CompactTree(v)
  {
    PrefixReadAgain();
    BlankReadAgain();
    RoleReadAgain("AXAX");
  }

  // ---------- what survives ----------

  // Own fields that make an element more than a wrapper, whatever it contains.
  predicate Telling(o: Own) {
    || o.role !in {"", "Other", "Application", "Window", "Group"}
    || o.value != "" || o.placeholder != "" || o.interactable
    || (if o.identifier == "" then o.labelText != "" else o.labelText != o.identifier)
  }

  // A labelled control that makes a leaf with these fields decoration.
  predicate Covers(p: Own, o: Own) {
    && p.interactable && p.labelText != "" && !o.interactable && o.value == ""
    && (o.role == "Image" || o.labelText == "" || Contains(p.labelText, o.labelText))
  }

  /** An element becomes a node exactly when its fields tell something, or it is a
      leaf that has an identifier; otherwise what it contains takes its place. */
  lemma NodeIff(fields: Fields, kids: seq<Raw>)
    ensures var own := OwnOf(fields);
      var children := Dedupe(Prune(own, CompactAll(kids)));
      Compact(RObj(fields, kids)) ==
        if Telling(own) || (own.identifier != "" && children == []) then [Node(own, children)] else children
  {
    hide OwnOf, Prune, Dedupe, CompactAll;
  }

  // Some element of the description has these own fields, and no control around
  // it covers them.
  ghost predicate Stands(v: Raw, o: Own) {
    match v
    case RArr(items) => exists x :: x in items && Stands(x, o)
    case RObj(fields, kids) => OwnOf(fields) == o || (!Covers(OwnOf(fields), o) && exists x :: x in kids && Stands(x, o))
    case RScalar => false
  }

  lemma UncoveredStays(own: Own, kids: seq<Node>, o: Own)
    requires Telling(o) && (own == o || (!Covers(own, o) && ShowsIn(kids, o)))
    ensures ShowsIn(CompactObject(own, kids), o)
  {
    hide Contains;
    var children := Dedupe(Prune(own, kids));
    PruneFacts(own, kids);
    DedupeFacts(Prune(own, kids));
    if own != o {
      var n :| n in kids && Shows(n, o);
      assert !IsDecoration(own, n);
      assert n in children;
    }
    if !IsNoise(own, children) {
      assert Shows(Node(own, children), o);
      assert Node(own, children) in CompactObject(own, kids);
    }
  }

  lemma {:induction false} CompactStands(v: Raw, o: Own)
    requires Telling(o) && Stands(v, o)
    ensures ShowsIn(Compact(v), o)
  {
    match v {
      case RArr(items) =>
        var x :| x in items && Stands(x, o);
        CompactAllStands(items, x, o);
      case RObj(fields, kids) =>
        if OwnOf(fields) != o {
          var x :| x in kids && Stands(x, o);
          CompactAllStands(kids, x, o);
        }
        UncoveredStays(OwnOf(fields), CompactAll(kids), o);
    }
  }

  lemma {:induction false} CompactAllStands(vs: seq<Raw>, x: Raw, o: Own)
    requires Telling(o) && x in vs && Stands(x, o)
    ensures ShowsIn(CompactAll(vs), o)
    decreases vs
  {
    if x == vs[0] {
      CompactStands(vs[0], o);
      var n :| n in Compact(vs[0]) && Shows(n, o);
      assert n in CompactAll(vs);
    } else {
      CompactAllStands(vs[1..], x, o);
      var n :| n in CompactAll(vs[1..]) && Shows(n, o);
      assert n in CompactAll(vs);
    }
  }

  /** An element that tells something survives, wherever it stands, unless a
      labelled control around it covers it. */
  lemma TellingSurvives(v: Raw, o: Own)
    requires Telling(o) && Stands(v, o)
    ensures ShowsIn(CompactTree(v), o)
  {
    CompactStands(v, o);
    DedupeFacts(Compact(v));
    var n :| n in Compact(v) && Shows(n, o);
    assert n in CompactTree(v);
  }

  // x is a node of the tree of n.
  ghost predicate Within(n: Node, x: Node) {
    n == x || exists c :: c in n.children && Within(c, x)
  }

  lemma {:induction false} CanonicalWithin(n: Node, x: Node)
    requires Canonical(n) && Within(n, x)
    ensures Canonical(x)
  {
    if n != x {
      var c :| c in n.children && Within(c, x);
      CanonicalWithin(c, x);
    }
  }

  /** And nothing else does: every node tells something or is a leaf with an
      identifier, and no control has a leaf that it covers. */
  lemma SurvivorsTell(v: Raw, n: Node, x: Node)
    requires n in CompactTree(v) && Within(n, x)
    ensures Telling(x.own) || (x.own.identifier != "" && x.children == [])
    ensures forall c :: c in x.children && c.children == [] ==> !Covers(x.own, c.own)
  {
    CompactTreeIsCanonical(v);
    CanonicalWithin(n, x);
  }

  // ---------- nothing actionable is lost, nothing is invented ----------

  predicate Actionable(o: Own) {
    o.interactable || o.value != ""
  }

  // Some element of the description has these own fields.
  ghost predicate Describes(v: Raw, o: Own) {
    match v
    case RArr(items) => exists x :: x in items && Describes(x, o)
    case RObj(fields, kids) => OwnOf(fields) == o || exists x :: x in kids && Describes(x, o)
    case RScalar => false
  }

  // Some node of the tree does.
  ghost predicate Shows(n: Node, o: Own) {
    n.own == o || exists c :: c in n.children && Shows(c, o)
  }

  ghost predicate ShowsIn(nodes: seq<Node>, o: Own) {
    exists n :: n in nodes && Shows(n, o)
  }

  // What is actionable tells something, and nothing covers it.
  lemma {:induction false} ActionableStands(v: Raw, o: Own)
    requires Actionable(o) && Describes(v, o)
    ensures Telling(o) && Stands(v, o)
  {
    match v {
      case RArr(items) =>
        var x :| x in items && Describes(x, o);
        ActionableStands(x, o);
      case RObj(fields, kids) =>
        if OwnOf(fields) != o {
          var x :| x in kids && Describes(x, o);
          ActionableStands(x, o);
        }
    }
  }

  lemma {:induction false} CompactInventsNothing(v: Raw, o: Own)
    requires ShowsIn(Compact(v), o)
    ensures Describes(v, o)
  {
    match v {
      case RArr(items) => CompactAllInventsNothing(items, o);
      case RObj(fields, kids) =>
        var own := OwnOf(fields);
        var children := Dedupe(Prune(own, CompactAll(kids)));
        PruneFacts(own, CompactAll(kids));
        DedupeFacts(Prune(own, CompactAll(kids)));
        var n :| n in Compact(v) && Shows(n, o);
        if own != o {
          var c :| c in children && Shows(c, o);
          assert c in CompactAll(kids);
          CompactAllInventsNothing(kids, o);
        }
    }
  }

  lemma {:induction false} CompactAllInventsNothing(vs: seq<Raw>, o: Own)
    requires ShowsIn(CompactAll(vs), o)
    ensures exists x :: x in vs && Describes(x, o)
  {
    var n :| n in CompactAll(vs) && Shows(n, o);
    if n in Compact(vs[0]) {
      CompactInventsNothing(vs[0], o);
    } else {
      assert n in CompactAll(vs[1..]);
      CompactAllInventsNothing(vs[1..], o);
      var x :| x in vs[1..] && Describes(x, o);
      assert x in vs;
    }
  }

  /** Every element that is interactable or has a value appears with its own
      fields unchanged, however much around it is pruned, hoisted or merged; and
      no node appears that the description does not have. */
  lemma CompactTreeKeepsActionable(v: Raw, o: Own)
    ensures ShowsIn(CompactTree(v), o) ==> Describes(v, o)
    ensures Actionable(o) ==> (ShowsIn(CompactTree(v), o) <==> Describes(v, o))
  {
    DedupeFacts(Compact(v));
    if ShowsIn(CompactTree(v), o) {
      var n :| n in CompactTree(v) && Shows(n, o);
      assert ShowsIn(Compact(v), o);
      CompactInventsNothing(v, o);
    }
    if Actionable(o) && Describes(v, o) {
      ActionableStands(v, o);
      TellingSurvives(v, o);
    }
  }
}
