/**
 * The pure logic of the PSD-extraction worker (worker.js): which layers of a
 * parsed document are offered for export, how they are numbered and named in
 * the payload sent back to the page, how an export request finds them again,
 * and how export file names are made safe for a file system.
 *
 * The PSD library itself (reading the binary file, rasterising layers into
 * canvases) is not modelled: a parsed document is given as a forest of
 * `Layer` values.
 */
module PsdWorker {

  datatype Option<T> = None | Some(value: T)

  datatype Result<T> = Ok(value: T) | Err(message: string)

  /**
   * A node of the layer tree produced by the PSD library. Every node with a
   * `children` array is a group; every other node is a leaf. `hasCanvas` says
   * whether the library attached raster data to the leaf; a missing `name` is
   * the empty string (both are falsy where the worker tests them). `id`
   * stands for the `_uniqId` property the worker attaches to the leaves it
   * selected; `None` while that property is undefined.
   */
  datatype Layer =
    | Group(hidden: bool, children: seq<Layer>)
    | Leaf(hidden: bool, width: int, height: int, hasCanvas: bool, name: string, id: Option<nat>)

  /** One entry of the `parsed` payload (the thumbnail is not modelled). */
  datatype Entry = Entry(id: nat, name: string, width: int, height: int)

  const NoLayersMessage: string := "No visible raster layers found in this PSD."
  const MissingPsdMessage: string := "PSD data not found. Please reload file."

  // ---------------------------------------------------------------------
  // Selection: `traverse` in parsePSD
  // ---------------------------------------------------------------------

  /** The leaf test of `traverse`: visible, with a positive size and raster data. */
  predicate Selectable(l: Layer) {
    l.Leaf? && !l.hidden && l.width > 0 && l.height > 0 && l.hasCanvas
  }

  /** `traverse` applied to each node of a children array in turn. */
  function Select(ls: seq<Layer>): (r: seq<Layer>)
    ensures forall k :: 0 <= k < |r| ==> Selectable(r[k])
    decreases ls
  {
    if ls == [] then [] else SelectNode(ls[0]) + Select(ls[1..])
  }

  /** `traverse(node)`: a hidden group is skipped with everything below it. */
  function SelectNode(n: Layer): (r: seq<Layer>)
    ensures forall k :: 0 <= k < |r| ==> Selectable(r[k])
    decreases n
  {
    match n
    case Group(hidden, children) => if hidden then [] else Select(children)
    case Leaf(_, _, _, _, _, _) => if Selectable(n) then [n] else []
  }

  /** Every leaf of a forest, depth first and left to right, hidden groups included. */
  function Leaves(ls: seq<Layer>): seq<Layer>
    decreases ls
  {
    if ls == [] then [] else LeavesOf(ls[0]) + Leaves(ls[1..])
  }

  function LeavesOf(n: Layer): seq<Layer>
    decreases n
  {
    match n
    case Group(_, children) => Leaves(children)
    case Leaf(_, _, _, _, _, _) => [n]
  }

  /** The leaves of a forest that lie outside every hidden group, in tree order. */
  function ShownLeaves(ls: seq<Layer>): seq<Layer>
    decreases ls
  {
    if ls == [] then [] else ShownLeavesOf(ls[0]) + ShownLeaves(ls[1..])
  }

  function ShownLeavesOf(n: Layer): seq<Layer>
    decreases n
  {
    match n
    case Group(hidden, children) => if hidden then [] else ShownLeaves(children)
    case Leaf(_, _, _, _, _, _) => [n]
  }

  /** The elements of `s` that pass the leaf test, in order. */
  function FilterSelectable(s: seq<Layer>): (r: seq<Layer>)
    ensures |r| <= |s|
  {
    if s == [] then [] else (if Selectable(s[0]) then [s[0]] else []) + FilterSelectable(s[1..])
  }

  lemma {:induction false} FilterSelectableAppend(a: seq<Layer>, b: seq<Layer>)
    ensures FilterSelectable(a + b) == FilterSelectable(a) + FilterSelectable(b)
    decreases |a|
  {
    if a != [] {
      assert (a + b)[0] == a[0];
      assert (a + b)[1..] == a[1..] + b;
      FilterSelectableAppend(a[1..], b);
    } else {
      assert a + b == b;
    }
  }

  /** The selection is exactly the selectable leaves outside hidden groups, in tree order. */
  lemma {:induction false} SelectIsShownSelectable(ls: seq<Layer>)
    ensures Select(ls) == FilterSelectable(ShownLeaves(ls))
    decreases ls
  {
    if ls != [] {
      SelectNodeIsShownSelectable(ls[0]);
      SelectIsShownSelectable(ls[1..]);
      FilterSelectableAppend(ShownLeavesOf(ls[0]), ShownLeaves(ls[1..]));
    }
  }

  lemma {:induction false} SelectNodeIsShownSelectable(n: Layer)
    ensures SelectNode(n) == FilterSelectable(ShownLeavesOf(n))
    decreases n
  {
    match n
    case Group(hidden, children) =>
      if !hidden {
        SelectIsShownSelectable(children);
      }
    case Leaf(_, _, _, _, _, _) =>
      assert FilterSelectable([n]) == (if Selectable(n) then [n] else []) + FilterSelectable([]);
  }

  /** `a` is obtained from `b` by deleting elements. */
  predicate Subsequence(a: seq<Layer>, b: seq<Layer>)
    decreases |b|
  {
    if b == [] then a == []
    else (a != [] && a[0] == b[0] && Subsequence(a[1..], b[1..])) || Subsequence(a, b[1..])
  }

  lemma {:induction false} EmptySubsequence(b: seq<Layer>)
    ensures Subsequence([], b)
    decreases |b|
  {
    if b != [] {
      EmptySubsequence(b[1..]);
    }
  }

  lemma {:induction false} SubsequenceAppend(a1: seq<Layer>, b1: seq<Layer>, a2: seq<Layer>, b2: seq<Layer>)
    requires Subsequence(a1, b1) && Subsequence(a2, b2)
    ensures Subsequence(a1 + a2, b1 + b2)
    decreases |b1|
  {
    if b1 != [] {
      assert (b1 + b2)[1..] == b1[1..] + b2;
      if a1 != [] && a1[0] == b1[0] && Subsequence(a1[1..], b1[1..]) {
        SubsequenceAppend(a1[1..], b1[1..], a2, b2);
        assert (a1 + a2)[1..] == a1[1..] + a2;
      } else {
        SubsequenceAppend(a1, b1[1..], a2, b2);
      }
    } else {
      assert a1 + a2 == a2 && b1 + b2 == b2;
    }
  }

  /** Selected layers keep the depth-first, left-to-right order of the whole tree. */
  lemma {:induction false} SelectInTreeOrder(ls: seq<Layer>)
    ensures Subsequence(Select(ls), Leaves(ls))
    decreases ls
  {
    if ls == [] {
    } else {
      SelectNodeInTreeOrder(ls[0]);
      SelectInTreeOrder(ls[1..]);
      SubsequenceAppend(SelectNode(ls[0]), LeavesOf(ls[0]), Select(ls[1..]), Leaves(ls[1..]));
    }
  }

  lemma {:induction false} SelectNodeInTreeOrder(n: Layer)
    ensures Subsequence(SelectNode(n), LeavesOf(n))
    decreases n
  {
    match n
    case Group(hidden, children) =>
      if hidden {
        EmptySubsequence(Leaves(children));
      } else {
        SelectInTreeOrder(children);
      }
    case Leaf(_, _, _, _, _, _) =>
      EmptySubsequence([]);
      assert [n][1..] == [];
  }

  /**
   * Two forests that differ only inside hidden groups: same shape and same
   * leaves everywhere else, anything at all below a hidden group.
   */
  predicate SameOutsideHidden(a: seq<Layer>, b: seq<Layer>)
    decreases a
  {
    if a == [] then b == []
    else b != [] && SameNodeOutsideHidden(a[0], b[0]) && SameOutsideHidden(a[1..], b[1..])
  }

  predicate SameNodeOutsideHidden(x: Layer, y: Layer)
    decreases x
  {
    match x
    case Group(hidden, children) =>
      y.Group? && y.hidden == hidden && (hidden || SameOutsideHidden(children, y.children))
    case Leaf(_, _, _, _, _, _) => y == x
  }

  /** Nothing below a hidden group can influence, or appear in, the selection. */
  lemma {:induction false} HiddenGroupsIgnored(a: seq<Layer>, b: seq<Layer>)
    requires SameOutsideHidden(a, b)
    ensures Select(a) == Select(b)
    decreases a
  {
    if a != [] {
      HiddenGroupIgnored(a[0], b[0]);
      HiddenGroupsIgnored(a[1..], b[1..]);
    }
  }

  lemma {:induction false} HiddenGroupIgnored(x: Layer, y: Layer)
    requires SameNodeOutsideHidden(x, y)
    ensures SelectNode(x) == SelectNode(y)
    decreases x
  {
    match x
    case Group(hidden, children) =>
      if !hidden {
        HiddenGroupsIgnored(children, y.children);
      }
    case Leaf(_, _, _, _, _, _) =>
  }

  lemma {:induction false} SelectAppend(a: seq<Layer>, b: seq<Layer>)
    ensures Select(a + b) == Select(a) + Select(b)
    decreases |a|
  {
    if a != [] {
      assert (a + b)[1..] == a[1..] + b;
      SelectAppend(a[1..], b);
    } else {
      assert a + b == b;
    }
  }

  /** A hidden group placed anywhere in a children array contributes no layer. */
  lemma HiddenGroupContributesNothing(before: seq<Layer>, children: seq<Layer>, after: seq<Layer>)
    ensures Select(before + [Group(true, children)] + after) == Select(before + after)
  {
    SelectAppend(before + [Group(true, children)], after);
    SelectAppend(before, [Group(true, children)]);
    SelectAppend(before, after);
    assert Select([Group(true, children)]) == [] + Select([]);
  }

  // ---------------------------------------------------------------------
  // Numbering: the payload loop of parsePSD
  // ---------------------------------------------------------------------

  /** `layer._uniqId = k` on a leaf; a group has no such property to set. */
  function SetId(l: Layer, k: nat): (r: Layer)
    ensures r.Leaf? == l.Leaf? && Selectable(r) == Selectable(l)
    ensures r.Group? ==> r == l
    ensures r.Leaf? ==> && r.id == Some(k) && r.name == l.name && r.hidden == l.hidden
                        && r.width == l.width && r.height == l.height && r.hasCanvas == l.hasCanvas
  {
    match l
    case Group(_, _) => l
    case Leaf(_, _, _, _, _, _) => l.(id := Some(k))
  }

  /** The selected leaves after the payload loop tagged them start, start + 1, ... */
  function Numbered(s: seq<Layer>, start: nat): (r: seq<Layer>)
    ensures |r| == |s|
    decreases |s|
  {
    if s == [] then [] else [SetId(s[0], start)] + Numbered(s[1..], start + 1)
  }

  /** Position k of the numbered selection is the k-th selected leaf with id `start + k`. */
  lemma {:induction false} NumberedAt(s: seq<Layer>, start: nat)
    ensures forall k :: 0 <= k < |s| ==> Numbered(s, start)[k] == SetId(s[k], start + k)
    decreases |s|
  {
    if s != [] {
      NumberedAt(s[1..], start + 1);
    }
  }

  /** The payload name: `layer.name || \`Layer ${i + 1}\``. */
  function DisplayName(name: string, i: nat): (r: string)
    ensures r != []
    ensures name != [] ==> r == name
    ensures name == [] ==> |r| > 6 && r[..6] == "Layer " && IsNumeral(r[6..]) && DecimalValue(r[6..]) == i + 1
  {
    if name == "" then
      var digits := DecimalString(i + 1);
      DecimalStringValue(i + 1);
      assert ("Layer " + digits)[6..] == digits;
      "Layer " + digits
    else name
  }

  /** The payload entry of the i-th selected layer. */
  function EntryOf(l: Layer, i: nat): Entry
    requires l.Leaf?
  {
    Entry(i, DisplayName(l.name, i), l.width, l.height)
  }

  /**
   * The payload loop: entry i carries id i and the display name of the i-th
   * selected layer; `tagged` is the selection after `layer._uniqId = i`.
   */
  method BuildPayload(visible: seq<Layer>) returns (tagged: seq<Layer>, payload: seq<Entry>)
    requires forall l <- visible :: l.Leaf?
    ensures |payload| == |visible|
    ensures forall i :: 0 <= i < |visible| ==> payload[i] == EntryOf(visible[i], i)
    ensures tagged == Numbered(visible, 0)
  {
    tagged, payload := [], [];
    var i := 0;
    while i < |visible|
      invariant 0 <= i <= |visible|
      invariant |payload| == i && |tagged| == i
      invariant forall k :: 0 <= k < i ==> payload[k] == EntryOf(visible[k], k)
      invariant forall k :: 0 <= k < i ==> tagged[k] == SetId(visible[k], k)
    {
      var layer := visible[i];
      tagged := tagged + [SetId(layer, i)];
      payload := payload + [EntryOf(layer, i)];
      i := i + 1;
    }
    NumberedAt(visible, 0);
  }

  /**
   * The whole tree after the payload loop: the k-th selected leaf (counting
   * from `start`) carries id `start + k`; every other node is untouched.
   */
  function TagForest(ls: seq<Layer>, start: nat): (r: seq<Layer>)
    ensures |r| == |ls|
    decreases ls
  {
    if ls == [] then [] else [TagNode(ls[0], start)] + TagForest(ls[1..], start + |SelectNode(ls[0])|)
  }

  function TagNode(n: Layer, start: nat): Layer
    decreases n
  {
    match n
    case Group(hidden, children) => if hidden then n else Group(hidden, TagForest(children, start))
    case Leaf(_, _, _, _, _, _) => if Selectable(n) then SetId(n, start) else n
  }

  lemma {:induction false} NumberedAppend(a: seq<Layer>, b: seq<Layer>, start: nat)
    ensures Numbered(a + b, start) == Numbered(a, start) + Numbered(b, start + |a|)
  {
    var whole := Numbered(a + b, start);
    var parts := Numbered(a, start) + Numbered(b, start + |a|);
    NumberedAt(a + b, start);
    NumberedAt(a, start);
    NumberedAt(b, start + |a|);
    forall k | 0 <= k < |whole|
      ensures whole[k] == parts[k]
    {
      if k < |a| {
        assert (a + b)[k] == a[k];
      } else {
        assert (a + b)[k] == b[k - |a|];
      }
    }
  }

  /** Tagging the tree tags exactly the selected leaves, with their positions in the selection. */
  lemma {:induction false} SelectTagged(ls: seq<Layer>, start: nat)
    ensures Select(TagForest(ls, start)) == Numbered(Select(ls), start)
    decreases ls
  {
    if ls != [] {
      var rest := start + |SelectNode(ls[0])|;
      var tagged := TagForest(ls, start);
      assert tagged[0] == TagNode(ls[0], start);
      assert tagged[1..] == TagForest(ls[1..], rest);
      assert Select(ls) == SelectNode(ls[0]) + Select(ls[1..]);
      assert Select(tagged) == SelectNode(tagged[0]) + Select(tagged[1..]);
      calc {
        Select(tagged);
        SelectNode(TagNode(ls[0], start)) + Select(TagForest(ls[1..], rest));
        { SelectNodeTagged(ls[0], start); SelectTagged(ls[1..], rest); }
        Numbered(SelectNode(ls[0]), start) + Numbered(Select(ls[1..]), rest);
        { NumberedAppend(SelectNode(ls[0]), Select(ls[1..]), start); }
        Numbered(SelectNode(ls[0]) + Select(ls[1..]), start);
        Numbered(Select(ls), start);
      }
    }
  }

  lemma {:induction false} SelectNodeTagged(n: Layer, start: nat)
    ensures SelectNode(TagNode(n, start)) == Numbered(SelectNode(n), start)
    decreases n
  {
    match n
    case Group(hidden, children) =>
      if !hidden {
        SelectTagged(children, start);
      }
    case Leaf(_, _, _, _, _, _) =>
  }

  // ---------------------------------------------------------------------
  // Re-selection: `findById` in exportLayers
  // ---------------------------------------------------------------------

  /** No leaf of the forest carries an id yet: the tree as the library returns it. */
  predicate Untagged(ls: seq<Layer>)
    decreases ls
  {
    ls == [] || (UntaggedNode(ls[0]) && Untagged(ls[1..]))
  }

  predicate UntaggedNode(n: Layer)
    decreases n
  {
    match n
    case Group(_, children) => Untagged(children)
    case Leaf(_, _, _, _, _, _) => n.id.None?
  }

  /** Is a leaf's `_uniqId` defined and among the requested `ids`? */
  predicate Requested(l: Layer, ids: seq<int>) {
    l.Leaf? && l.id.Some? && l.id.value in ids
  }

  /** `findById` over a children array: every requested leaf, hidden or not, in tree order. */
  function FindById(ls: seq<Layer>, ids: seq<int>): (r: seq<Layer>)
    ensures forall k :: 0 <= k < |r| ==> Requested(r[k], ids)
    decreases ls
  {
    if ls == [] then [] else FindNode(ls[0], ids) + FindById(ls[1..], ids)
  }

  function FindNode(n: Layer, ids: seq<int>): (r: seq<Layer>)
    ensures forall k :: 0 <= k < |r| ==> Requested(r[k], ids)
    decreases n
  {
    match n
    case Group(_, children) => FindById(children, ids)
    case Leaf(_, _, _, _, _, _) => if Requested(n, ids) then [n] else []
  }

  /** The elements of `s` whose id is requested, in order. */
  function Keep(s: seq<Layer>, ids: seq<int>): (r: seq<Layer>)
    ensures |r| <= |s|
  {
    if s == [] then [] else (if Requested(s[0], ids) then [s[0]] else []) + Keep(s[1..], ids)
  }

  lemma {:induction false} KeepAppend(a: seq<Layer>, b: seq<Layer>, ids: seq<int>)
    ensures Keep(a + b, ids) == Keep(a, ids) + Keep(b, ids)
    decreases |a|
  {
    if a != [] {
      assert (a + b)[0] == a[0];
      assert (a + b)[1..] == a[1..] + b;
      KeepAppend(a[1..], b, ids);
    } else {
      assert a + b == b;
    }
  }

  lemma {:induction false} FindUntagged(ls: seq<Layer>, ids: seq<int>)
    requires Untagged(ls)
    ensures FindById(ls, ids) == []
    decreases ls
  {
    if ls != [] {
      FindNodeUntagged(ls[0], ids);
      FindUntagged(ls[1..], ids);
    }
  }

  lemma {:induction false} FindNodeUntagged(n: Layer, ids: seq<int>)
    requires UntaggedNode(n)
    ensures FindNode(n, ids) == []
    decreases n
  {
    match n
    case Group(_, children) => FindUntagged(children, ids);
    case Leaf(_, _, _, _, _, _) =>
  }

  /**
   * On a freshly parsed and numbered tree, `findById(ids)` returns exactly the
   * selected leaves whose number is in `ids`, in selection (= tree) order.
   */
  lemma {:induction false} FindByIdFindsSelection(ls: seq<Layer>, start: nat, ids: seq<int>)
    requires Untagged(ls)
    ensures FindById(TagForest(ls, start), ids) == Keep(Numbered(Select(ls), start), ids)
    decreases ls
  {
    if ls != [] {
      var rest := start + |SelectNode(ls[0])|;
      var tagged := TagForest(ls, start);
      var headFound := FindNode(TagNode(ls[0], start), ids);
      var tailFound := FindById(TagForest(ls[1..], rest), ids);
      assert tagged[0] == TagNode(ls[0], start);
      assert tagged[1..] == TagForest(ls[1..], rest);
      assert FindById(tagged, ids) == headFound + tailFound;
      FindNodeFindsSelection(ls[0], start, ids);
      FindByIdFindsSelection(ls[1..], rest, ids);
      var headSel := Numbered(SelectNode(ls[0]), start);
      var tailSel := Numbered(Select(ls[1..]), rest);
      NumberedAppend(SelectNode(ls[0]), Select(ls[1..]), start);
      assert Numbered(Select(ls), start) == headSel + tailSel;
      KeepAppend(headSel, tailSel, ids);
    }
  }

  lemma {:induction false} FindNodeFindsSelection(n: Layer, start: nat, ids: seq<int>)
    requires UntaggedNode(n)
    ensures FindNode(TagNode(n, start), ids) == Keep(Numbered(SelectNode(n), start), ids)
    decreases n
  {
    match n
    case Group(hidden, children) =>
      if hidden {
        FindUntagged(children, ids);
      } else {
        FindByIdFindsSelection(children, start, ids);
      }
    case Leaf(_, _, _, _, _, _) =>
  }

  /** The leaf numbered k is found again exactly when k is requested. */
  lemma FoundIffRequested(ls: seq<Layer>, ids: seq<int>, k: nat)
    requires Untagged(ls) && k < |Select(ls)|
    ensures SetId(Select(ls)[k], k) in FindById(TagForest(ls, 0), ids) <==> k in ids
  {
    FindByIdFindsSelection(ls, 0, ids);
    var numbered := Numbered(Select(ls), 0);
    KeepMembers(numbered, ids);
    NumberedAt(Select(ls), 0);
    assert numbered[k] == SetId(Select(ls)[k], k);
    if SetId(Select(ls)[k], k) in Keep(numbered, ids) {
      assert Requested(SetId(Select(ls)[k], k), ids);
    }
  }

  lemma {:induction false} KeepMembers(s: seq<Layer>, ids: seq<int>)
    ensures forall l :: l in Keep(s, ids) <==> l in s && Requested(l, ids)
    decreases |s|
  {
    if s != [] {
      KeepMembers(s[1..], ids);
      assert s == [s[0]] + s[1..];
    }
  }

  // ---------------------------------------------------------------------
  // File names and formats
  // ---------------------------------------------------------------------

  /** The characters the export replaces with '_': \ / : * ? " < > | */
  predicate IsReserved(c: char) {
    c == '\\' || c == '/' || c == ':' || c == '*' || c == '?' || c == '"' || c == '<' || c == '>' || c == '|'
  }

  /** The characters `String.prototype.trim` removes: ECMAScript WhiteSpace and LineTerminator. */
  predicate IsTrimmed(c: char) {
    c == '\t' || c == '\n' || c == '\U{000B}' || c == '\U{000C}' || c == '\r' || c == ' '
    || c == '\U{00A0}' || c == '\U{1680}' || ('\U{2000}' <= c <= '\U{200A}')
    || c == '\U{2028}' || c == '\U{2029}' || c == '\U{202F}' || c == '\U{205F}'
    || c == '\U{3000}' || c == '\U{FEFF}'
  }

  function TrimStart(s: string): (r: string)
    ensures |r| <= |s| && r == s[|s| - |r|..]
    ensures forall k :: 0 <= k < |s| - |r| ==> IsTrimmed(s[k])
    ensures r != [] ==> !IsTrimmed(r[0])
  {
    if s != [] && IsTrimmed(s[0]) then TrimStart(s[1..]) else s
  }

  function TrimEnd(s: string): (r: string)
    ensures |r| <= |s| && r == s[..|r|]
    ensures forall k :: |r| <= k < |s| ==> IsTrimmed(s[k])
    ensures r != [] ==> !IsTrimmed(r[|r| - 1])
  {
    if s != [] && IsTrimmed(s[|s| - 1]) then TrimEnd(s[..|s| - 1]) else s
  }

  /** `s.trim()`: the longest infix of `s` with no trimmed character at either end. */
  function Trim(s: string): (r: string)
    ensures |r| <= |s|
    ensures r != [] ==> !IsTrimmed(r[0]) && !IsTrimmed(r[|r| - 1])
    ensures s != [] && !IsTrimmed(s[0]) && !IsTrimmed(s[|s| - 1]) ==> r == s
  {
    TrimEnd(TrimStart(s))
  }

  /** `r` is the infix `s[a..b]`, and everything before and after it is trimmed. */
  predicate CutAtEnds(s: string, a: int, b: int, r: string) {
    && 0 <= a <= b <= |s| && r == s[a..b]
    && (forall k :: 0 <= k < a ==> IsTrimmed(s[k]))
    && (forall k :: b <= k < |s| ==> IsTrimmed(s[k]))
  }

  /**
   * Trimming removes whitespace at the two ends and nothing else: the result
   * is an infix of `s`, and everything cut off before and after it is
   * whitespace or a line terminator.
   */
  lemma TrimCutsOnlyEnds(s: string)
    ensures exists a, b :: CutAtEnds(s, a, b, Trim(s))
  {
    var front := TrimStart(s);
    var kept := TrimEnd(front);
    var a := |s| - |front|;
    var b := a + |kept|;
    assert kept == s[a..b];
    forall k | b <= k < |s| ensures IsTrimmed(s[k]) {
      assert s[k] == front[k - a];
    }
    assert CutAtEnds(s, a, b, Trim(s));
  }

  /** `s.replace(/[\\/:*?"<>|]/g, '_')` */
  function ReplaceReserved(s: string): (r: string)
    ensures |r| == |s|
    ensures forall k :: 0 <= k < |s| ==> r[k] == if IsReserved(s[k]) then '_' else s[k]
  {
    if s == [] then [] else [if IsReserved(s[0]) then '_' else s[0]] + ReplaceReserved(s[1..])
  }

  predicate IsDecimal(s: string) {
    s != [] && forall c <- s :: '0' <= c <= '9'
  }

  /** The decimal rendering of a number in a template literal. */
  function DecimalString(n: nat): (r: string)
    ensures IsDecimal(r)
  {
    if n < 10 then ["0123456789"[n]] else DecimalString(n / 10) + ["0123456789"[n % 10]]
  }

  /** The number a string of decimal digits denotes, read left to right. */
  function DecimalValue(s: string): nat
    requires forall c <- s :: '0' <= c <= '9'
    decreases |s|
  {
    if s == [] then 0
    else
      var init := s[..|s| - 1];
      assert forall c <- init :: c in s;
      assert s[|s| - 1] in s;
      10 * DecimalValue(init) + ((s[|s| - 1] as int) - ('0' as int))
  }

  /** A numeral as JavaScript writes a non-negative integer: digits, no leading zero. */
  predicate IsNumeral(s: string) {
    IsDecimal(s) && (s[0] == '0' ==> |s| == 1)
  }

  /** `${n}` spells n: its digits denote n, with no leading zero. */
  lemma {:induction false} DecimalStringValue(n: nat)
    ensures IsNumeral(DecimalString(n)) && DecimalValue(DecimalString(n)) == n
  {
    var r := DecimalString(n);
    if n >= 10 {
      DecimalStringValue(n / 10);
      var init := DecimalString(n / 10);
      assert r == init + ["0123456789"[n % 10]];
      assert r[..|r| - 1] == init;
      assert r[0] == init[0];
    }
  }

  /** `${layer._uniqId}`: the decimal id, or "undefined" for a leaf without one. */
  function IdText(id: Option<nat>): (r: string)
    ensures r != [] && !IsTrimmed(r[0]) && !IsTrimmed(r[|r| - 1])
    ensures forall c <- r :: !IsReserved(c)
  {
    match id
    case Some(k) =>
      var digits := DecimalString(k);
      assert digits[0] in digits && digits[|digits| - 1] in digits;
      digits
    case None => "undefined"
  }

  /** The id text is the id's decimal numeral, or "undefined" for a leaf without an id. */
  lemma IdTextSpellsId(id: Option<nat>)
    ensures id.Some? ==> IsNumeral(IdText(id)) && DecimalValue(IdText(id)) == id.value
    ensures id.None? ==> IdText(id) == "undefined"
  {
    if id.Some? {
      DecimalStringValue(id.value);
    }
  }

  /** `\`Layer_${layer._uniqId}\`` */
  function FallbackName(idText: string): string {
    "Layer_" + idText
  }

  /** The three sanitising steps of exportLayers, in the order the worker applies them. */
  function SanitizedName(name: string, idText: string): string {
    var base := if name == "" then FallbackName(idText) else name;
    var cleaned := ReplaceReserved(Trim(base));
    if cleaned == "" then FallbackName(idText) else cleaned
  }

  lemma ReplaceKeeps(s: string)
    requires forall c <- s :: !IsReserved(c)
    ensures ReplaceReserved(s) == s
  {
    var r := ReplaceReserved(s);
    assert forall k :: 0 <= k < |s| ==> r[k] == s[k] by {
      forall k | 0 <= k < |s| ensures r[k] == s[k] {
        assert s[k] in s;
      }
    }
  }

  /** `Layer_<id>` survives trimming and replacing unchanged. */
  lemma FallbackIsClean(id: Option<nat>)
    ensures var fallback := FallbackName(IdText(id));
      Trim(fallback) == fallback && ReplaceReserved(fallback) == fallback
      && forall c <- fallback :: !IsReserved(c)
  {
    var text := IdText(id);
    var fallback := FallbackName(text);
    FallbackEnds(text);
    FallbackNoReserved(text);
    ReplaceKeeps(fallback);
  }

  lemma FallbackEnds(text: string)
    requires text != [] && !IsTrimmed(text[|text| - 1])
    ensures var fallback := FallbackName(text);
      !IsTrimmed(fallback[0]) && !IsTrimmed(fallback[|fallback| - 1])
  {
    var fallback := FallbackName(text);
    assert fallback[0] == 'L';
    assert fallback[|fallback| - 1] == text[|text| - 1];
  }

  lemma FallbackNoReserved(text: string)
    requires forall c <- text :: !IsReserved(c)
    ensures forall c <- FallbackName(text) :: !IsReserved(c)
  {
    var fallback := FallbackName(text);
    forall k | 0 <= k < |fallback| ensures !IsReserved(fallback[k]) {
      if k < 6 {
        assert fallback[k] == "Layer_"[k];
      } else {
        assert fallback[k] == text[k - 6];
        assert text[k - 6] in text;
      }
    }
  }

  /**
   * A sanitised name is never empty and holds no reserved character. It is
   * the trimmed layer name with each reserved character turned into '_', or
   * `Layer_<id>` when the trimmed name is empty.
   */
  lemma SanitizedNameSpec(name: string, id: Option<nat>)
    ensures var r := SanitizedName(name, IdText(id));
      && r != []
      && (forall c <- r :: !IsReserved(c))
      && (Trim(name) == [] ==> r == FallbackName(IdText(id)))
      && (Trim(name) != [] ==> r == ReplaceReserved(Trim(name)))
  {
    FallbackIsClean(id);
    var fallback := FallbackName(IdText(id));
    var trimmed := Trim(name);
    if trimmed != [] {
      var cleaned := ReplaceReserved(trimmed);
      forall c <- cleaned ensures !IsReserved(c) {
        var k :| 0 <= k < |cleaned| && cleaned[k] == c;
      }
      assert SanitizedName(name, IdText(id)) == cleaned;
    } else if name == "" {
      assert SanitizedName(name, IdText(id)) == fallback;
    } else {
      assert ReplaceReserved(trimmed) == [];
      assert SanitizedName(name, IdText(id)) == fallback;
    }
  }

  /** `format === 'png' ? 'png' : 'jpg'` */
  function Extension(format: string): (ext: string)
    ensures ext == "png" <==> format == "png"
    ensures ext == "png" || ext == "jpg"
  {
    if format == "png" then "png" else "jpg"
  }

  /** `format === 'png' ? 'image/png' : 'image/jpeg'` */
  function MimeType(format: string): (mime: string)
    ensures mime == "image/png" <==> format == "png"
    ensures mime == "image/png" || mime == "image/jpeg"
  {
    if format == "png" then "image/png" else "image/jpeg"
  }

  /** `\`${filename}.${ext}\`` for one exported layer. */
  function FileName(l: Layer, ext: string): string
    requires l.Leaf?
  {
    SanitizedName(l.name, IdText(l.id)) + "." + ext
  }

  /** A safe, non-empty stem, a dot, and the extension. */
  predicate IsExportName(f: string, ext: string) {
    |f| >= |ext| + 2 && f[|f| - |ext|..] == ext && f[|f| - |ext| - 1] == '.'
    && forall c <- f[..|f| - |ext| - 1] :: !IsReserved(c)
  }

  /** How an export names one layer: `${filename}.${ext}`. */
  function Namer(ext: string): Layer --> string {
    (l: Layer) requires l.Leaf? => NamedFile(l, ext)
  }

  /**
   * The names written for the first n found layers, `name` naming one layer:
   * found layers without a canvas are skipped.
   */
  function Written(found: seq<Layer>, n: nat, name: Layer --> string): (r: seq<string>)
    requires n <= |found| && forall l: Layer :: l.Leaf? ==> name.requires(l)
    ensures |r| <= n
    decreases n
  {
    if n == 0 then []
    else
      var l := found[n - 1];
      Written(found, n - 1, name) + if l.Leaf? && l.hasCanvas then [name(l)] else []
  }

  /** The names of the files an export of the found layers produces. */
  function ExportNames(found: seq<Layer>, ext: string): seq<string> {
    Written(found, |found|, Namer(ext))
  }

  /** The first n found layers that an export writes a file for: the leaves with pixels, in order. */
  function WithPixels(found: seq<Layer>, n: nat): (r: seq<Layer>)
    requires n <= |found|
    ensures forall k :: 0 <= k < |r| ==> r[k].Leaf? && r[k].hasCanvas
    ensures forall l <- r :: l in found
    ensures forall i :: 0 <= i < n && found[i].Leaf? && found[i].hasCanvas ==> found[i] in r
    decreases n
  {
    if n == 0 then []
    else
      var l := found[n - 1];
      WithPixels(found, n - 1) + if l.Leaf? && l.hasCanvas then [l] else []
  }

  /** The names written are those of the layers with pixels, one each, in order. */
  lemma {:induction false} WrittenOfPixels(found: seq<Layer>, n: nat, name: Layer --> string)
    requires n <= |found| && forall l: Layer :: l.Leaf? ==> name.requires(l)
    ensures |Written(found, n, name)| == |WithPixels(found, n)|
    ensures forall k :: 0 <= k < |WithPixels(found, n)| ==>
      Written(found, n, name)[k] == name(WithPixels(found, n)[k])
    decreases n
  {
    if n > 0 {
      WrittenOfPixels(found, n - 1, name);
    }
  }

  /** An export writes one file per found leaf with pixels, in order, named after that leaf. */
  lemma ExportNamesOfPixels(found: seq<Layer>, ext: string)
    ensures |ExportNames(found, ext)| == |WithPixels(found, |found|)|
    ensures forall k :: 0 <= k < |WithPixels(found, |found|)| ==>
      ExportNames(found, ext)[k] == FileName(WithPixels(found, |found|)[k], ext)
  {
    WrittenOfPixels(found, |found|, Namer(ext));
  }

  /** Every name an export produces is a safe, non-empty stem, a dot and the extension. */
  lemma ExportNamesAreSafe(found: seq<Layer>, ext: string)
    ensures forall f <- ExportNames(found, ext) :: IsExportName(f, ext)
  {
    ExportNamesOfPixels(found, ext);
    var names := ExportNames(found, ext);
    var pixels := WithPixels(found, |found|);
    forall f <- names ensures IsExportName(f, ext) {
      var k :| 0 <= k < |names| && names[k] == f;
      assert f == NamedFile(pixels[k], ext);
    }
  }

  function NamedFile(l: Layer, ext: string): (f: string)
    requires l.Leaf?
    ensures IsExportName(f, ext)
    ensures f == FileName(l, ext)
  {
    SanitizedNameSpec(l.name, l.id);
    var stem := SanitizedName(l.name, IdText(l.id));
    StemDotExtension(stem, ext);
    stem + "." + ext
  }

  lemma StemDotExtension(stem: string, ext: string)
    requires stem != [] && forall c <- stem :: !IsReserved(c)
    ensures IsExportName(stem + "." + ext, ext)
  {
    var f := stem + "." + ext;
    assert f[..|f| - |ext| - 1] == stem;
    assert f[|f| - |ext|..] == ext;
  }

  /** The export loop of exportLayers: one file name per found layer with pixels. */
  method ExportFiles(found: seq<Layer>, name: Layer --> string) returns (files: seq<string>)
    requires forall l <- found :: l.Leaf?
    requires forall l: Layer :: l.Leaf? ==> name.requires(l)
    ensures files == Written(found, |found|, name)
  {
    files := [];
    var k := 0;
    while k < |found|
      invariant 0 <= k <= |found|
      invariant files == Written(found, k, name)
    {
      var layer := found[k];
      if layer.hasCanvas {  // a layer without pixels is skipped
        files := files + [name(layer)];
      }
      k := k + 1;
    }
  }

  // ---------------------------------------------------------------------
  // The worker: the global `psd` and the two requests
  // ---------------------------------------------------------------------

  datatype Request = ParseRequest(doc: seq<Layer>) | ExportRequest(ids: seq<int>, format: string) | OtherRequest

  datatype Response =
    | Parsed(entries: seq<Entry>)
    | ExportData(files: seq<string>)
    | Error(message: string)
    | NoResponse

  class Worker {
    /** The last document the library parsed (`let psd = null`). */
    var psd: Option<seq<Layer>>

    constructor ()
      ensures psd == None
    {
      psd := None;
    }

    /**
     * parsePSD on a document the library has already read: the document is
     * kept even when it has nothing to offer, in which case the request fails;
     * otherwise the selected leaves are numbered in the kept tree and listed.
     */
    method Parse(doc: seq<Layer>) returns (r: Result<seq<Entry>>)
      modifies this`psd
      ensures Select(doc) == [] ==> r == Err(NoLayersMessage) && psd == Some(doc)
      ensures Select(doc) != [] ==> psd == Some(TagForest(doc, 0)) && r.Ok?
      ensures r.Ok? ==> |r.value| == |Select(doc)| && forall i :: 0 <= i < |r.value| ==>
        r.value[i] == EntryOf(Select(doc)[i], i)
    {
      psd := Some(doc);
      var visible := Select(doc);
      if |visible| == 0 {
        return Err(NoLayersMessage);
      }
      var tagged, payload := BuildPayload(visible);
      SelectTagged(doc, 0);
      assert tagged == Select(TagForest(doc, 0));
      psd := Some(TagForest(doc, 0));
      r := Ok(payload);
    }

    /** exportLayers: the file names produced for the requested ids. */
    method Export(ids: seq<int>, format: string) returns (r: Result<seq<string>>)
      ensures psd.None? ==> r == Err(MissingPsdMessage)
      ensures psd.Some? ==> r == Ok(ExportNames(FindById(psd.value, ids), Extension(format)))
    {
      if psd.None? {
        return Err(MissingPsdMessage);
      }
      var files := ExportFiles(FindById(psd.value, ids), Namer(Extension(format)));
      r := Ok(files);
    }

    /** onmessage: dispatch a request and turn a thrown error into an error message. */
    method Handle(req: Request) returns (resp: Response)
      modifies this`psd
      ensures req.OtherRequest? ==> resp == NoResponse && psd == old(psd)
      ensures req.ExportRequest? ==> psd == old(psd)
      ensures req.ParseRequest? && Select(req.doc) == [] ==> resp == Error(NoLayersMessage) && psd == Some(req.doc)
      ensures req.ParseRequest? && Select(req.doc) != [] ==>
        && psd == Some(TagForest(req.doc, 0))
        && resp.Parsed? && |resp.entries| == |Select(req.doc)|
        && forall i :: 0 <= i < |resp.entries| ==> resp.entries[i] == EntryOf(Select(req.doc)[i], i)
      ensures req.ExportRequest? && old(psd).None? ==> resp == Error(MissingPsdMessage)
      ensures req.ExportRequest? && old(psd).Some? ==>
        resp == ExportData(ExportNames(FindById(old(psd).value, req.ids), Extension(req.format)))
    {
      match req
      case ParseRequest(doc) =>
        var r := Parse(doc);
        resp := if r.Ok? then Parsed(r.value) else Error(r.message);
      case ExportRequest(ids, format) =>
        var r := Export(ids, format);
        resp := if r.Ok? then ExportData(r.value) else Error(r.message);
      case OtherRequest =>
        resp := NoResponse;
    }
  }
}
