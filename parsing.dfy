/**
 * Code-block extraction from a model response and scene-class discovery
 * over a parsed Python module (`src/manim_generator/utils/parsing.py`).
 */
module Parsing {
  import opened Wrappers
  import opened Strings

  // ---------------------------------------------------------------------
  // parse_code_block: re.search(r"```(?:python)?\s*\n(.*?)```", text, re.DOTALL)
  // ---------------------------------------------------------------------

  /** A run of three backticks starts at `i`. */
  predicate FenceAt(s: string, i: int)
  {
    0 <= i && i + 3 <= |s| && s[i] == '`' && s[i + 1] == '`' && s[i + 2] == '`'
  }

  predicate HasFence(s: string)
  {
    exists i :: 0 <= i <= |s| && FenceAt(s, i)
  }

  /** The leftmost fence at or after `from`. */
  function FirstFence(s: string, from: nat): (r: Option<nat>)
    ensures r.Some? ==> from <= r.value && FenceAt(s, r.value)
    ensures r.Some? ==> forall k :: from <= k < r.value ==> !FenceAt(s, k)
    ensures r.None? ==> forall k :: from <= k ==> !FenceAt(s, k)
    decreases |s| - from
  {
    if from + 3 > |s| then None
    else if FenceAt(s, from) then Some(from)
    else FirstFence(s, from + 1)
  }

  /**
   * `\s*\n` at `i`: `\s*` is greedy, so the group starts after the LAST
   * newline of the whitespace run that begins at `i`; `None` when that run
   * holds no newline.
   */
  function AfterLastNewline(s: string, i: nat, last: Option<nat>): (r: Option<nat>)
    requires last.Some? ==> last.value <= |s|
    ensures r.Some? ==> r.value <= |s|
    decreases |s| - i
  {
    if i < |s| && IsSpace(s[i]) then
      AfterLastNewline(s, i + 1, if s[i] == '\n' then Some(i + 1) else last)
    else last
  }

  /**
   * Where the captured group starts for an opening fence at `p`. When the
   * fence is followed by "python", the alternative without it cannot match
   * either (`p` is not whitespace), so only the first alternative is tried.
   */
  function GroupStart(s: string, p: nat): (r: Option<nat>)
    ensures r.Some? ==> r.value <= |s|
  {
    var q := p + 3;
    var body := if q <= |s| && StartsWith(s[q..], "python") then q + 6 else q;
    AfterLastNewline(s, body, None)
  }

  /**
   * The match of an opening fence at `p`, if any: the group start and the
   * start of the closing fence, which the lazy `(.*?)` puts at the first
   * fence after the group start.
   */
  function MatchFrom(s: string, p: nat): (r: Option<(nat, nat)>)
    ensures r.Some? ==> r.value.0 <= r.value.1 && FenceAt(s, r.value.1)
    ensures r.Some? ==> forall k :: r.value.0 <= k < r.value.1 ==> !FenceAt(s, k)
  {
    match GroupStart(s, p)
    case None => None
    case Some(g) =>
      match FirstFence(s, g)
      case None => None
      case Some(c) => Some((g, c))
  }

  /** The leftmost match at or after `from`: opening fences are tried from left to right. */
  function SearchBlock(s: string, from: nat): (r: Option<(nat, nat)>)
    ensures r.Some? ==> r.value.0 <= r.value.1 && FenceAt(s, r.value.1)
    ensures r.Some? ==> forall k :: r.value.0 <= k < r.value.1 ==> !FenceAt(s, k)
    decreases |s| - from
  {
    match FirstFence(s, from)
    case None => None
    case Some(p) => if MatchFrom(s, p).Some? then MatchFrom(s, p) else SearchBlock(s, p + 1)
  }

  /**
   * The stripped body of the first fenced block, or the whole text when
   * there is none: a block, once found, is shorter than the reply and holds
   * no fence.
   */
  function ParseCodeBlock(text: string): (r: string)
    ensures SearchBlock(text, 0).None? ==> r == text
    ensures SearchBlock(text, 0).Some? ==> !HasFence(r) && |r| < |text|
  {
    match SearchBlock(text, 0)
    case None => text
    case Some((g, c)) =>
      NoFenceInSlice(text, g, c);
      StripNoFence(text[g..c]);
      Strip(text[g..c])
  }

  /** Stripping a text without a fence leaves a shorter-or-equal text without one. */
  lemma StripNoFence(x: string)
    requires !HasFence(x)
    ensures !HasFence(Strip(x)) && |Strip(x)| <= |x|
  {
    var i, j := StripBounds(x);
    NoFenceInSlice(x, i, j);
  }

  /** A slice of a text holds no fence when no fence of the text starts inside it. */
  lemma NoFenceInSlice(s: string, a: nat, b: nat)
    requires a <= b <= |s|
    requires forall k :: a <= k < b ==> !FenceAt(s, k)
    ensures !HasFence(s[a..b])
  {
    forall k | 0 <= k <= b - a ensures !FenceAt(s[a..b], k) {
      if k + 3 <= b - a {
        assert !FenceAt(s, a + k);
      }
    }
  }

  lemma {:induction false} FirstFenceIs(s: string, from: nat, c: nat)
    requires from <= c && FenceAt(s, c)
    requires forall k :: from <= k < c ==> !FenceAt(s, k)
    ensures FirstFence(s, from) == Some(c)
    decreases c - from
  {
    if from < c {
      FirstFenceIs(s, from + 1, c);
    }
  }

  lemma {:induction false} NoFenceFrom(s: string, from: nat)
    requires !HasFence(s)
    ensures FirstFence(s, from) == None
    decreases |s| - from
  {
    if from + 3 <= |s| {
      assert !FenceAt(s, from);
      NoFenceFrom(s, from + 1);
    }
  }

  /** A text without a fence is returned unchanged. */
  lemma ParseCodeBlockUnfenced(text: string)
    requires !HasFence(text)
    ensures ParseCodeBlock(text) == text
  {
    NoFenceFrom(text, 0);
  }

  /**
   * An extracted block holds no fence and has no whitespace at either end.
   */
  lemma ParseCodeBlockClean(text: string)
    requires SearchBlock(text, 0).Some?
    ensures !HasFence(ParseCodeBlock(text))
    ensures var r := ParseCodeBlock(text); r == [] || (!IsSpace(r[0]) && !IsSpace(r[|r| - 1]))
  {
    var (g, c) := SearchBlock(text, 0).value;
    var x := text[g..c];
    NoFenceInSlice(text, g, c);
    StripIsSlice(x);
    var i, j := StripBounds(x);
    NoFenceInSlice(x, i, j);
  }

  /** Extracting again from an extracted block changes nothing. */
  lemma ParseCodeBlockIdempotent(text: string)
    ensures ParseCodeBlock(ParseCodeBlock(text)) == ParseCodeBlock(text)
  {
    if SearchBlock(text, 0).Some? {
      ParseCodeBlockClean(text);
      ParseCodeBlockUnfenced(ParseCodeBlock(text));
    }
  }

  /** The pieces of `intro + "```" + tag + "\n" + code + "\n```" + rest`, by position. */
  lemma FencedLayout(intro: string, tag: string, code: string, rest: string)
    ensures var s := intro + "```" + tag + "\n" + code + "\n```" + rest;
            var p := |intro|;
            var g := p + 3 + |tag| + 1;
            && |s| == g + |code| + 4 + |rest|
            && s[..p] == intro
            && FenceAt(s, p) && s[p + 3..p + 3 + |tag|] == tag && s[p + 3 + |tag|] == '\n'
            && s[g..g + |code|] == code
            && s[g + |code|] == '\n' && FenceAt(s, g + |code| + 1)
  {
    var s := intro + "```" + tag + "\n" + code + "\n```" + rest;
    var g := |intro| + 3 + |tag| + 1;
    assert s == intro + ("```" + (tag + ("\n" + (code + ("\n```" + rest)))));
    assert s[g + |code| + 1..g + |code| + 4] == "```";
  }

  /** The opening fence at `p` is the first one, and its group starts on the next line. */
  lemma OpeningOfFencedScript(s: string, p: nat, tag: string)
    requires tag == "python" || tag == ""
    requires p + 5 + |tag| <= |s|
    requires '`' !in s[..p] && FenceAt(s, p)
    requires s[p + 3..p + 3 + |tag|] == tag && s[p + 3 + |tag|] == '\n' && !IsSpace(s[p + 4 + |tag|])
    ensures FirstFence(s, 0) == Some(p) && GroupStart(s, p) == Some(p + 4 + |tag|)
  {
    var nl := p + 3 + |tag|;
    var g := nl + 1;
    forall k | 0 <= k < p ensures !FenceAt(s, k) {
      assert s[k] == s[..p][k];
    }
    FirstFenceIs(s, 0, p);
    TagSkipped(s, p + 3, tag);
    assert AfterLastNewline(s, g, Some(g)) == Some(g);
    assert AfterLastNewline(s, nl, None) == Some(g);
  }

  /** The optional `python` tag after a fence is read exactly when it is there. */
  lemma TagSkipped(s: string, q: nat, tag: string)
    requires tag == "python" || tag == ""
    requires q + |tag| < |s| && s[q..q + |tag|] == tag && s[q + |tag|] == '\n'
    ensures StartsWith(s[q..], "python") <==> tag == "python"
  {
    if tag == "python" {
      assert s[q..][..6] == s[q..q + 6];
    } else {
      assert s[q..][0] == s[q] == '\n';
    }
  }

  /** The first fence after the group start is the one on the line after the code. */
  lemma ClosingOfFencedScript(s: string, g: nat, code: string)
    requires g + |code| + 4 <= |s| && !HasFence(code)
    requires s[g..g + |code|] == code
    requires s[g + |code|] == '\n' && FenceAt(s, g + |code| + 1)
    ensures FirstFence(s, g) == Some(g + |code| + 1)
  {
    var nl := g + |code|;
    forall k | g <= k < nl + 1 ensures !FenceAt(s, k) {
      if k + 3 <= nl {
        assert !FenceAt(code, k - g);
        assert s[k] == code[k - g] && s[k + 1] == code[k - g + 1] && s[k + 2] == code[k - g + 2];
      } else if k == nl {
        assert s[k] == '\n';
      } else if k + 1 == nl {
        assert s[k + 1] == '\n';
      } else {
        assert s[k + 2] == '\n';
      }
    }
    FirstFenceIs(s, g, nl + 1);
  }

  /** The group is the code and its newline, which stripping removes. */
  lemma StripOfCodeLine(s: string, g: nat, c: nat, code: string)
    requires c == g + |code| + 1 <= |s|
    requires code != [] && !IsSpace(code[0]) && !IsSpace(code[|code| - 1])
    requires s[g..g + |code|] == code && s[g + |code|] == '\n'
    ensures Strip(s[g..c]) == code
  {
    assert s[g..c] == s[g..g + |code|] + [s[g + |code|]];
    assert TrimStart(code + "\n") == code + "\n";
    assert (code + "\n")[..|code|] == code;
  }

  /** The first opening fence, its group start and the next fence make the leftmost match. */
  lemma BlockFound(s: string, p: nat, g: nat, c: nat)
    requires FirstFence(s, 0) == Some(p) && GroupStart(s, p) == Some(g) && FirstFence(s, g) == Some(c)
    ensures SearchBlock(s, 0) == Some((g, c))
  {
    assert MatchFrom(s, p) == Some((g, c));
  }

  /** With the layout's fences, the leftmost match is the layout's block. */
  lemma LayoutSearch(s: string, p: nat, tag: string, code: string)
    requires tag == "python" || tag == ""
    requires p + 8 + |tag| + |code| <= |s|
    requires code != [] && !IsSpace(code[0]) && !HasFence(code)
    requires '`' !in s[..p] && FenceAt(s, p) && s[p + 3..p + 3 + |tag|] == tag && s[p + 3 + |tag|] == '\n'
    requires s[p + 4 + |tag|..p + 4 + |tag| + |code|] == code
    requires s[p + 4 + |tag| + |code|] == '\n' && FenceAt(s, p + 5 + |tag| + |code|)
    ensures SearchBlock(s, 0) == Some((p + 4 + |tag|, p + 5 + |tag| + |code|))
  {
    var g := p + 4 + |tag|;
    assert s[g] == s[g..g + |code|][0];
    OpeningOfFencedScript(s, p, tag);
    ClosingOfFencedScript(s, g, code);
    BlockFound(s, p, g, g + |code| + 1);
  }

  /** A leftmost match holding the code and its newline extracts the code. */
  lemma BlockIsCode(s: string, g: nat, c: nat, code: string)
    requires SearchBlock(s, 0) == Some((g, c))
    requires c == g + |code| + 1 <= |s|
    requires code != [] && !IsSpace(code[0]) && !IsSpace(code[|code| - 1])
    requires s[g..g + |code|] == code && s[g + |code|] == '\n'
    ensures ParseCodeBlock(s) == code
  {
    StripOfCodeLine(s, g, c, code);
  }

  lemma RecoveredFromLayout(s: string, p: nat, tag: string, code: string)
    requires tag == "python" || tag == ""
    requires p + 8 + |tag| + |code| <= |s|
    requires code != [] && !IsSpace(code[0]) && !IsSpace(code[|code| - 1]) && !HasFence(code)
    requires '`' !in s[..p] && FenceAt(s, p) && s[p + 3..p + 3 + |tag|] == tag && s[p + 3 + |tag|] == '\n'
    requires s[p + 4 + |tag|..p + 4 + |tag| + |code|] == code
    requires s[p + 4 + |tag| + |code|] == '\n' && FenceAt(s, p + 5 + |tag| + |code|)
    ensures ParseCodeBlock(s) == code
  {
    LayoutSearch(s, p, tag, code);
    BlockIsCode(s, p + 4 + |tag|, p + 5 + |tag| + |code|, code);
  }

  /**
   * The inverse direction: a script in a fence tagged "python" or untagged,
   * after prose without backticks, is recovered exactly, whatever follows.
   */
  lemma FencedScriptRecovered(intro: string, tag: string, code: string, rest: string)
    requires tag == "python" || tag == ""
    requires forall i :: 0 <= i < |intro| ==> intro[i] != '`'
    requires code != [] && !IsSpace(code[0]) && !IsSpace(code[|code| - 1])
    requires !HasFence(code)
    ensures ParseCodeBlock(intro + "```" + tag + "\n" + code + "\n```" + rest) == code
  {
    var s := intro + "```" + tag + "\n" + code + "\n```" + rest;
    FencedLayout(intro, tag, code, rest);
    RecoveredFromLayout(s, |intro|, tag, code);
  }

  // ---------------------------------------------------------------------
  // extract_scene_class_names: ast.parse, then ast.walk over the tree
  // ---------------------------------------------------------------------

  /** A base-class expression: `Name`, `Attribute` (`manim.Scene`), or anything else. */
  datatype BaseRef = NameRef(id: string) | AttributeRef(attr: string) | OtherRef

  /**
   * A statement of the parsed module. `Compound` stands for every statement
   * that holds nested statements (def, if, with, for, try, ...); their
   * statement children are listed in field order. Expression nodes never
   * contain statements, so the order in which `ast.walk` meets statements is
   * the breadth-first order of this tree, provided the parser renders each
   * `ExceptHandler` and `match_case` node (neither a statement nor an
   * expression, but a level of its own between a statement and the body it
   * holds) as a `Compound` holding that body.
   */
  datatype Stmt =
    | ClassDef(name: string, bases: seq<BaseRef>, body: seq<Stmt>)
    | Compound(children: seq<Stmt>)
    | Simple

  /** What `ast.parse` gives: the module body, or the SyntaxError's text. */
  datatype ParseOutcome = Parsed(stmts: seq<Stmt>) | SyntaxError(message: string)

  datatype SceneParsingError = SceneParsingError(message: string)

  function Children(s: Stmt): seq<Stmt>
  {
    match s
    case ClassDef(_, _, body) => body
    case Compound(children) => children
    case Simple => []
  }

  /** `base.id` for a Name, otherwise `getattr(base, "attr", "")`. */
  function BaseId(b: BaseRef): string
  {
    match b
    case NameRef(id) => id
    case AttributeRef(attr) => attr
    case OtherRef => ""
  }

  predicate IsSceneBase(b: BaseRef)
  {
    EndsWith(BaseId(b), "Scene")
  }

  predicate IsSceneClass(s: Stmt)
  {
    s.ClassDef? && exists b :: b in s.bases && IsSceneBase(b)
  }

  /** Number of statements in a forest. */
  function Size(q: seq<Stmt>): nat
    decreases q
  {
    if q == [] then 0 else NodeSize(q[0]) + Size(q[1..])
  }

  function NodeSize(s: Stmt): nat
    decreases s
  {
    match s
    case ClassDef(_, _, body) => 1 + Size(body)
    case Compound(children) => 1 + Size(children)
    case Simple => 1
  }

  lemma {:induction false} SizeAppend(a: seq<Stmt>, b: seq<Stmt>)
    ensures Size(a + b) == Size(a) + Size(b)
    decreases |a|
  {
    if a != [] {
      assert (a + b)[1..] == a[1..] + b;
      SizeAppend(a[1..], b);
    } else {
      assert a + b == b;
    }
  }

  lemma SubforestsSmaller(q: seq<Stmt>)
    requires q != []
    ensures Size(Children(q[0])) < Size(q) && Size(q[1..]) < Size(q)
  {
  }

  lemma QueueStep(q: seq<Stmt>)
    requires q != []
    ensures Size(q[1..] + Children(q[0])) < Size(q)
  {
    SizeAppend(q[1..], Children(q[0]));
  }

  /** `ast.walk`: pop the head of the queue, enqueue its children, yield it. */
  function Walk(q: seq<Stmt>): seq<Stmt>
    decreases Size(q)
  {
    if q == [] then []
    else
      QueueStep(q);
      [q[0]] + Walk(q[1..] + Children(q[0]))
  }

  /** Every statement of the forest in source (pre-)order: the reference enumeration. */
  function Preorder(q: seq<Stmt>): seq<Stmt>
    decreases Size(q)
  {
    if q == [] then []
    else
      SubforestsSmaller(q);
      [q[0]] + Preorder(Children(q[0])) + Preorder(q[1..])
  }

  /** The children of every statement of `q`, in order. */
  function AllChildren(q: seq<Stmt>): seq<Stmt>
  {
    if q == [] then [] else Children(q[0]) + AllChildren(q[1..])
  }

  /** The names a walk reports: one per class with a scene base, in walk order. */
  function SceneNames(nodes: seq<Stmt>): seq<string>
  {
    if nodes == [] then []
    else (if IsSceneClass(nodes[0]) then [nodes[0].name] else []) + SceneNames(nodes[1..])
  }

  /** The result of `extract_scene_class_names` for a parse outcome. */
  function DiscoveredScenes(tree: ParseOutcome): Result<seq<string>, SceneParsingError>
  {
    match tree
    case SyntaxError(msg) => Err(SceneParsingError("Syntax error in code: " + msg))
    case Parsed(stmts) => Ok(SceneNames(Walk(stmts)))
  }

  method ExtractSceneClassNames(tree: ParseOutcome) returns (r: Result<seq<string>, SceneParsingError>)
    ensures r == DiscoveredScenes(tree)
  {
    if tree.SyntaxError? {
      return Err(SceneParsingError("Syntax error in code: " + tree.message));
    }
    var sceneNames: seq<string> := [];
    var queue := tree.stmts;
    ghost var visited: seq<Stmt> := [];
    while queue != []
      invariant Walk(tree.stmts) == visited + Walk(queue)
      invariant sceneNames == SceneNames(visited)
      decreases Size(queue)
    {
      var node := queue[0];
      QueueStep(queue);
      VisitStep(tree.stmts, visited, queue);
      VisitNames(visited, node);
      queue := queue[1..] + Children(node);
      var listed := false;
      if node.ClassDef? {
        listed := HasSceneBase(node.bases);
      }
      if listed {
        sceneNames := sceneNames + [node.name];
      }
      visited := visited + [node];
    }
    assert visited + [] == visited;
    r := Ok(sceneNames);
  }

  /** Visiting the head of the queue moves it to the visited statements and queues its children. */
  lemma VisitStep(root: seq<Stmt>, visited: seq<Stmt>, queue: seq<Stmt>)
    requires queue != [] && Walk(root) == visited + Walk(queue)
    ensures Walk(root) == (visited + [queue[0]]) + Walk(queue[1..] + Children(queue[0]))
  {
    var rest := Walk(queue[1..] + Children(queue[0]));
    WalkStep(queue);
    assert visited + ([queue[0]] + rest) == (visited + [queue[0]]) + rest;
  }

  /** Visiting a statement adds its name to the scene names exactly when it is a scene class. */
  lemma VisitNames(visited: seq<Stmt>, node: Stmt)
    ensures SceneNames(visited + [node])
            == SceneNames(visited) + (if IsSceneClass(node) then [node.name] else [])
  {
    SceneNamesAppend(visited, [node]);
    SceneNamesOne(node);
  }

  lemma WalkStep(q: seq<Stmt>)
    requires q != []
    ensures Walk(q) == [q[0]] + Walk(q[1..] + Children(q[0]))
  {
  }

  lemma SceneNamesOne(s: Stmt)
    ensures SceneNames([s]) == if IsSceneClass(s) then [s.name] else []
  {
    assert [s][1..] == [];
  }

  /** The loop over `node.bases` that stops at the first base ending with "Scene". */
  method HasSceneBase(bases: seq<BaseRef>) returns (found: bool)
    ensures found <==> exists b :: b in bases && IsSceneBase(b)
  {
    found := false;
    var i := 0;
    while i < |bases|
      invariant 0 <= i <= |bases|
      invariant forall j :: 0 <= j < i ==> !IsSceneBase(bases[j])
    {
      if EndsWith(BaseId(bases[i]), "Scene") {
        assert bases[i] in bases;
        found := true;
        break;
      }
      i := i + 1;
    }
    if !found {
      forall b | b in bases ensures !IsSceneBase(b) {
        var j :| 0 <= j < |bases| && bases[j] == b;
      }
    }
  }

  lemma {:induction false} SceneNamesAppend(a: seq<Stmt>, b: seq<Stmt>)
    ensures SceneNames(a + b) == SceneNames(a) + SceneNames(b)
    decreases |a|
  {
    if a != [] {
      assert (a + b)[1..] == a[1..] + b;
      SceneNamesAppend(a[1..], b);
    } else {
      assert a + b == b;
    }
  }

  lemma {:induction false} PreorderAppend(a: seq<Stmt>, b: seq<Stmt>)
    ensures Preorder(a + b) == Preorder(a) + Preorder(b)
    decreases |a|
  {
    if a != [] {
      assert (a + b)[1..] == a[1..] + b;
      PreorderAppend(a[1..], b);
    } else {
      assert a + b == b;
    }
  }

  /**
   * The walk reports the same names, with the same multiplicities, as the
   * source-order enumeration of every statement: each scene class once.
   */
  lemma {:induction false} WalkListsEveryClassOnce(q: seq<Stmt>)
    ensures multiset(SceneNames(Walk(q))) == multiset(SceneNames(Preorder(q)))
    decreases Size(q)
  {
    if q != [] {
      var rest := q[1..];
      var kids := Children(q[0]);
      QueueStep(q);
      WalkListsEveryClassOnce(rest + kids);
      assert Walk(q) == [q[0]] + Walk(rest + kids);
      SceneNamesAppend([q[0]], Walk(rest + kids));
      PreorderAppend(rest, kids);
      SceneNamesAppend(Preorder(rest), Preorder(kids));
      assert Preorder(q) == [q[0]] + Preorder(kids) + Preorder(rest);
      SceneNamesAppend([q[0]] + Preorder(kids), Preorder(rest));
      SceneNamesAppend([q[0]], Preorder(kids));
    }
  }

  lemma {:induction false} ListedIff(nodes: seq<Stmt>, n: string)
    ensures n in SceneNames(nodes) <==>
            exists i :: 0 <= i < |nodes| && IsSceneClass(nodes[i]) && nodes[i].name == n
    decreases |nodes|
  {
    if nodes != [] {
      ListedIff(nodes[1..], n);
      if n in SceneNames(nodes[1..]) {
        var i :| 0 <= i < |nodes[1..]| && IsSceneClass(nodes[1..][i]) && nodes[1..][i].name == n;
        assert nodes[i + 1] == nodes[1..][i];
      }
      if exists i :: 0 <= i < |nodes| && IsSceneClass(nodes[i]) && nodes[i].name == n {
        var i :| 0 <= i < |nodes| && IsSceneClass(nodes[i]) && nodes[i].name == n;
        if i > 0 {
          assert nodes[1..][i - 1] == nodes[i];
        }
      }
    }
  }

  /**
   * A name is discovered exactly when some class statement anywhere in the
   * module (nested in functions and blocks too) has that name and a base
   * whose final identifier ends with "Scene".
   */
  lemma DiscoveredIff(stmts: seq<Stmt>, n: string)
    ensures n in DiscoveredScenes(Parsed(stmts)).value <==>
            exists i :: 0 <= i < |Preorder(stmts)| && IsSceneClass(Preorder(stmts)[i]) && Preorder(stmts)[i].name == n
  {
    WalkListsEveryClassOnce(stmts);
    var w := SceneNames(Walk(stmts));
    var p := SceneNames(Preorder(stmts));
    assert n in w <==> n in multiset(w);
    assert n in p <==> n in multiset(p);
    ListedIff(Preorder(stmts), n);
  }

  /** Breadth-first order: a queue is reported before everything below it. */
  lemma {:induction false} WalkLevelOrder(q: seq<Stmt>, r: seq<Stmt>)
    ensures Walk(q + r) == q + Walk(r + AllChildren(q))
    decreases |q|
  {
    if q != [] {
      var q' := q[1..];
      assert (q + r)[0] == q[0];
      assert (q + r)[1..] + Children(q[0]) == q' + (r + Children(q[0]));
      WalkLevelOrder(q', r + Children(q[0]));
      assert r + Children(q[0]) + AllChildren(q') == r + AllChildren(q);
    } else {
      assert q + r == r && r + AllChildren(q) == r;
    }
  }

  /** Scene classes at stmts level are reported first, in source order. */
  lemma TopLevelScenesFirst(stmts: seq<Stmt>)
    ensures DiscoveredScenes(Parsed(stmts)).value ==
            SceneNames(stmts) + SceneNames(Walk(AllChildren(stmts)))
  {
    WalkLevelOrder(stmts, []);
    assert stmts + [] == stmts && [] + AllChildren(stmts) == AllChildren(stmts);
    SceneNamesAppend(stmts, Walk(AllChildren(stmts)));
  }

  /** A SyntaxError is returned as a value carrying the parser's message. */
  lemma SyntaxErrorReported(message: string)
    ensures DiscoveredScenes(SyntaxError(message)).Err?
    ensures DiscoveredScenes(SyntaxError(message)).error.message == "Syntax error in code: " + message
  {
  }

  /**
   * Level order: a scene class nested in a block is reported after a scene
   * class that follows the block at module level.
   */
  lemma NestedSceneReportedLater(inner: Stmt, outer: Stmt)
    requires IsSceneClass(inner) && Children(inner) == []
    requires IsSceneClass(outer) && Children(outer) == []
    ensures DiscoveredScenes(Parsed([Compound([inner]), outer])) == Ok([outer.name, inner.name])
  {
    NestedWalk(inner, outer);
    NestedNames(inner, outer);
  }

  lemma NestedWalk(inner: Stmt, outer: Stmt)
    requires Children(inner) == [] && Children(outer) == []
    ensures Walk([Compound([inner]), outer]) == [Compound([inner]), outer, inner]
  {
    var block := Compound([inner]);
    assert Walk([inner]) == [inner] by {
      WalkStep([inner]);
      assert [inner][1..] + Children(inner) == [];
    }
    assert Walk([outer, inner]) == [outer, inner] by {
      WalkStep([outer, inner]);
      assert [outer, inner][1..] + Children(outer) == [inner];
    }
    WalkStep([block, outer]);
    assert [block, outer][1..] + Children(block) == [outer, inner];
  }

  lemma NestedNames(inner: Stmt, outer: Stmt)
    requires IsSceneClass(inner) && IsSceneClass(outer)
    ensures SceneNames([Compound([inner]), outer, inner]) == [outer.name, inner.name]
  {
    var block := Compound([inner]);
    assert SceneNames([inner]) == [inner.name] by {
      assert [inner][1..] == [];
    }
    assert SceneNames([outer, inner]) == [outer.name, inner.name] by {
      assert [outer, inner][1..] == [inner];
    }
    assert !IsSceneClass(block);
    assert [block, outer, inner][1..] == [outer, inner];
  }

  /** Only the final identifier's suffix matters: "SceneHelperMixin" is not a scene base. */
  lemma SceneSuffixExample()
    ensures !IsSceneBase(NameRef("SceneHelperMixin")) && IsSceneBase(NameRef("MovingCameraScene"))
    ensures !IsSceneBase(OtherRef)
  {
    assert "SceneHelperMixin"[11..] != "Scene" by { assert "SceneHelperMixin"[11] == 'M'; }
    assert "MovingCameraScene"[12..] == "Scene";
  }
}
