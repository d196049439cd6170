/**
 * Template rendering in NewClass.php (`generateSourceCodeFromTemplate`):
 * five placeholder tokens are replaced one after another, each pass working
 * on the result of the previous one, by the arguments of the run.
 *
 * The second half proves when this sequential find/replace agrees with the
 * simultaneous substitution a reader expects: for a template made of
 * underscore-free text and tokens, and arguments without underscores, every
 * token is replaced by its own argument and none is left behind. The proof
 * rests on the shape of the tokens: each is "__" followed by at least two
 * words joined by single underscores and then "__", and no two of them
 * start with the same letter.
 */
module Rendering {
  import opened PhpStrings
  import opened Arguments

  /** The five placeholders the templates use. */
  datatype Placeholder =
    | BaseTestName
    | RootNamespace
    | TargetClassName
    | SubNamespace
    | LcTargetClassName

  /** The literal token a placeholder is written as in a template. */
  function Token(p: Placeholder): string {
    match p
    case BaseTestName => "__BASE_TEST_NAME__"
    case RootNamespace => "__ROOT_NAMESPACE__"
    case TargetClassName => "__TARGET_CLASS_NAME__"
    case SubNamespace => "__SUB_NAMESPACE__"
    case LcTargetClassName => "__LC_TARGET_CLASS_NAME__"
  }

  /** What a placeholder is replaced by: an argument, or `lcfirst` of the name. */
  function Value(p: Placeholder, args: Args): string {
    match p
    case BaseTestName => GetArgument(args, "basetestname")
    case RootNamespace => GetArgument(args, "rootnamespace")
    case TargetClassName => GetArgument(args, "name")
    case SubNamespace => GetArgument(args, "subnamespace")
    case LcTargetClassName => Lcfirst(GetArgument(args, "name"))
  }

  /**
   * `generateSourceCodeFromTemplate` once the template has been read: one
   * `str_replace` call with a search array and a replacement array.
   */
  function Render(template: string, args: Args): (r: string)
    ensures template == "" ==> r == ""
  {
    StrReplaceEach(
      ["__BASE_TEST_NAME__", "__ROOT_NAMESPACE__", "__TARGET_CLASS_NAME__",
       "__SUB_NAMESPACE__", "__LC_TARGET_CLASS_NAME__"],
      [GetArgument(args, "basetestname"), GetArgument(args, "rootnamespace"),
       GetArgument(args, "name"), GetArgument(args, "subnamespace"),
       Lcfirst(GetArgument(args, "name"))],
      template)
  }

  /** One pass of the array replacement: one placeholder by its value. */
  function Pass(p: Placeholder, args: Args, s: string): string {
    StrReplace(Token(p), Value(p, args), s)
  }

  /** Rendering is five passes, in the order base test name, root namespace,
      class name, sub-namespace, lower-case class name. */
  lemma RenderIsFivePasses(t: string, args: Args)
    ensures Render(t, args) ==
      Pass(LcTargetClassName, args, Pass(SubNamespace, args, Pass(TargetClassName, args,
        Pass(RootNamespace, args, Pass(BaseTestName, args, t)))))
  {
  }

  /** A template that contains none of the five tokens is returned unchanged. */
  lemma RenderWithoutTokens(t: string, args: Args)
    requires forall p: Placeholder :: !Occurs(Token(p), t)
    ensures Render(t, args) == t
  {
    RenderIsFivePasses(t, args);
    StrReplaceAbsent(Token(BaseTestName), Value(BaseTestName, args), t);
    StrReplaceAbsent(Token(RootNamespace), Value(RootNamespace, args), t);
    StrReplaceAbsent(Token(TargetClassName), Value(TargetClassName, args), t);
    StrReplaceAbsent(Token(SubNamespace), Value(SubNamespace, args), t);
    StrReplaceAbsent(Token(LcTargetClassName), Value(LcTargetClassName, args), t);
  }

  // ---------------------------------------------------------------------
  // The shape of the tokens
  // ---------------------------------------------------------------------

  /** A string without underscores. */
  predicate Plain(s: string) {
    '_' !in s
  }

  /** The part of a token between its leading and trailing "__". */
  function Inner(p: Placeholder): string {
    match p
    case BaseTestName => "BASE_TEST_NAME"
    case RootNamespace => "ROOT_NAMESPACE"
    case TargetClassName => "TARGET_CLASS_NAME"
    case SubNamespace => "SUB_NAMESPACE"
    case LcTargetClassName => "LC_TARGET_CLASS_NAME"
  }

  /** Words joined by single underscores: at least one underscore, none at
      either end and never two in a row. */
  predicate Words(w: string) {
    && |w| >= 1
    && w[0] != '_'
    && w[|w| - 1] != '_'
    && '_' in w
    && forall j :: 0 <= j < |w| - 1 && w[j] == '_' ==> w[j + 1] != '_'
  }

  lemma TokenShape(p: Placeholder)
    ensures Token(p) == "__" + Inner(p) + "__"
    ensures Words(Inner(p))
  {
    TokenSplits(p);
    match p
    case BaseTestName => BaseTestNameWords();
    case RootNamespace => RootNamespaceWords();
    case TargetClassName => TargetClassNameWords();
    case SubNamespace => SubNamespaceWords();
    case LcTargetClassName => LcTargetClassNameWords();
  }

  lemma TokenSplits(p: Placeholder)
    ensures Token(p) == "__" + Inner(p) + "__"
  {
    match p
    case BaseTestName => BaseTestNameSplits();
    case RootNamespace => RootNamespaceSplits();
    case TargetClassName => TargetClassNameSplits();
    case SubNamespace => SubNamespaceSplits();
    case LcTargetClassName => LcTargetClassNameSplits();
  }

  /** Each token is its inner words between two double underscores, case by case. */
  lemma BaseTestNameSplits() ensures "__" + "BASE_TEST_NAME" + "__" == "__BASE_TEST_NAME__" {
    assert "__" + "BASE_TEST_NAME" == "__BASE_TEST_NAME";
  }
  lemma RootNamespaceSplits() ensures "__" + "ROOT_NAMESPACE" + "__" == "__ROOT_NAMESPACE__" {
    assert "__" + "ROOT_NAMESPACE" == "__ROOT_NAMESPACE";
  }
  lemma TargetClassNameSplits() ensures "__" + "TARGET_CLASS_NAME" + "__" == "__TARGET_CLASS_NAME__" {
    assert "__" + "TARGET_CLASS_NAME" == "__TARGET_CLASS_NAME";
  }
  lemma SubNamespaceSplits() ensures "__" + "SUB_NAMESPACE" + "__" == "__SUB_NAMESPACE__" {
    assert "__" + "SUB_NAMESPACE" == "__SUB_NAMESPACE";
  }
  lemma LcTargetClassNameSplits() ensures "__" + "LC_TARGET_CLASS_NAME" + "__" == "__LC_TARGET_CLASS_NAME__" {
    assert "__" + "LC_TARGET_CLASS_NAME" == "__LC_TARGET_CLASS_NAME";
  }

  lemma BaseTestNameWords() ensures Words("BASE_TEST_NAME") {}
  lemma RootNamespaceWords() ensures Words("ROOT_NAMESPACE") {}
  lemma TargetClassNameWords() ensures Words("TARGET_CLASS_NAME") {}
  lemma SubNamespaceWords() ensures Words("SUB_NAMESPACE") {}
  lemma LcTargetClassNameWords() ensures Words("LC_TARGET_CLASS_NAME") {}

  /** Different tokens differ in their first word's first letter. */
  lemma InnersStartApart(p: Placeholder, q: Placeholder)
    requires p != q
    ensures |Inner(p)| > 0 && |Inner(q)| > 0 && Inner(p)[0] != Inner(q)[0]
  {
  }

  /** `__TARGET_CLASS_NAME__` does not occur inside `__LC_TARGET_CLASS_NAME__`,
      nor does any token occur inside another one. */
  lemma NoTokenInsideAnother(p: Placeholder, q: Placeholder)
    requires p != q
    ensures !Occurs(Token(q), Token(p))
  {
    forall i | 0 <= i <= |Token(p)|
      ensures !(Token(q) <= Token(p)[i..])
    {
      assert Token(p) + [] == Token(p);
      if i < |Token(p)| {
        TokenSkips(p, q, i, []);
      }
    }
  }

  /** The first underscore of a string that has one. */
  lemma FirstUnderscore(u: string) returns (m: nat)
    requires '_' in u
    ensures m < |u| && u[m] == '_' && Plain(u[..m])
  {
    if u[0] == '_' {
      m := 0;
    } else {
      var m' := FirstUnderscore(u[1..]);
      m := m' + 1;
      assert u[..m] == [u[0]] + u[1..][..m'];
    }
  }

  /**
   * In `s`, the first underscore (if any) is followed by a second one: this
   * holds of every joined template, where underscores appear only inside
   * tokens, and every token starts with "__".
   */
  predicate DoubledLead(s: string) {
    forall m :: 0 <= m < |s| && s[m] == '_' && Plain(s[..m]) ==> m + 1 < |s| && s[m + 1] == '_'
  }

  /** A token-shaped string does not match at the start of another one. */
  lemma ShapedSkipsStart(w: string, u: string, rest: string)
    requires Words(w) && Words(u) && w[0] != u[0]
    ensures !(("__" + u + "__") <= ("__" + w + "__") + rest)
  {
    var s := ("__" + w + "__") + rest;
    var pat := "__" + u + "__";
    assert s[2] == w[0] && pat[2] == u[0];
  }

  /** Nor at a position inside its words: there an underscore is never doubled. */
  lemma ShapedSkipsInside(w: string, u: string, rest: string, i: nat)
    requires Words(w) && Words(u)
    requires 1 <= i < |w| + 2
    ensures !(("__" + u + "__") <= (("__" + w + "__") + rest)[i..])
  {
    var t := "__" + w + "__";
    var s := (t + rest)[i..];
    var pat := "__" + u + "__";
    assert pat[0] == '_' && pat[1] == '_';
    assert s[0] == t[i] && s[1] == t[i + 1];
    if t[i] == '_' {
      if i == 1 {
        assert t[2] == w[0];
      } else {
        assert w[i - 2] == '_';
        assert t[i + 1] == w[i - 1];
      }
    }
  }

  /** Nor across its trailing "__", when what follows has its first underscore doubled. */
  lemma ShapedSkipsEnd(w: string, u: string, rest: string, i: nat)
    requires Words(w) && Words(u) && DoubledLead(rest)
    requires |w| + 2 <= i < |w| + 4
    ensures !(("__" + u + "__") <= (("__" + w + "__") + rest)[i..])
  {
    var t := "__" + w + "__";
    var s := (t + rest)[i..];
    var pat := "__" + u + "__";
    if i == |w| + 2 {
      assert s == "__" + rest;
      var m := FirstUnderscore(u);
      assert m >= 1 && m + 1 < |u|;
      assert pat[m + 2] == u[m] && pat[m + 3] == u[m + 1];
      if |rest| > m + 1 && rest[..m] == u[..m] && rest[m] == '_' {
        assert Plain(rest[..m]);
        assert rest[m + 1] == '_';
        assert s[m + 3] != pat[m + 3];
      } else if |rest| > m + 1 && rest[..m] == u[..m] {
        assert s[m + 2] != pat[m + 2];
      } else if |rest| > m + 1 {
        var k :| 0 <= k < m && rest[..m][k] != u[..m][k];
        assert s[k + 2] == rest[k] && pat[k + 2] == u[k];
      } else {
        assert |s| < |pat|;
      }
    }
    if i == |w| + 3 {
      assert s == "_" + rest;
      if |rest| > 0 && rest[0] == '_' {
        assert Plain(rest[..0]);
        assert 1 < |rest| && rest[1] == '_';
        assert s[2] != pat[2];
      } else {
        assert |s| < 2 || s[1] != pat[1];
      }
    }
  }

  /**
   * No occurrence of the token of `q` starts inside the token of `p` (when
   * they differ), provided what follows has its first underscore doubled.
   */
  lemma TokenSkips(p: Placeholder, q: Placeholder, i: nat, rest: string)
    requires p != q && i < |Token(p)|
    requires DoubledLead(rest)
    ensures !(Token(q) <= (Token(p) + rest)[i..])
  {
    TokenShape(p);
    TokenShape(q);
    InnersStartApart(p, q);
    var w, u := Inner(p), Inner(q);
    if i == 0 {
      ShapedSkipsStart(w, u, rest);
      assert (Token(p) + rest)[0..] == Token(p) + rest;
    } else if i < |w| + 2 {
      ShapedSkipsInside(w, u, rest, i);
    } else {
      ShapedSkipsEnd(w, u, rest, i);
    }
  }

  /** Replacing the token of `q` copies the token of `p` through unchanged. */
  lemma StrReplaceSkipToken(p: Placeholder, q: Placeholder, v: string, rest: string)
    requires p != q && DoubledLead(rest)
    ensures StrReplace(Token(q), v, Token(p) + rest) == Token(p) + StrReplace(Token(q), v, rest)
  {
    forall i | 0 <= i < |Token(p)|
      ensures !(Token(q) <= (Token(p) + rest)[i..])
    {
      TokenSkips(p, q, i, rest);
    }
    StrReplaceSkip(Token(q), v, Token(p), rest);
  }

  // ---------------------------------------------------------------------
  // Templates as text and placeholders
  // ---------------------------------------------------------------------

  /** A piece of a template: literal text or a placeholder token. */
  datatype Piece = Text(text: string) | Slot(p: Placeholder)

  /** How a piece is written in a template. */
  function Spelling(x: Piece): string {
    match x
    case Text(a) => a
    case Slot(p) => Token(p)
  }

  /** What a piece becomes under simultaneous substitution. */
  function Filled(x: Piece, args: Args): string {
    match x
    case Text(a) => a
    case Slot(p) => Value(p, args)
  }

  /** The template text the pieces spell out. */
  function Join(ps: seq<Piece>): string {
    if ps == [] then "" else Spelling(ps[0]) + Join(ps[1..])
  }

  /** Every literal piece is free of underscores. */
  predicate WellFormed(ps: seq<Piece>) {
    forall i :: 0 <= i < |ps| && ps[i].Text? ==> Plain(ps[i].text)
  }

  /** The pieces with every slot of `q` turned into the text `v`. */
  function Substitute(ps: seq<Piece>, q: Placeholder, v: string): seq<Piece> {
    if ps == [] then []
    else [if ps[0] == Slot(q) then Text(v) else ps[0]] + Substitute(ps[1..], q, v)
  }

  /** Simultaneous substitution: every slot becomes its value at once. */
  function Expand(ps: seq<Piece>, args: Args): string {
    if ps == [] then "" else Filled(ps[0], args) + Expand(ps[1..], args)
  }

  /** The four arguments that appear in rendered text contain no underscore. */
  predicate PlainArguments(args: Args) {
    && Plain(GetArgument(args, "name"))
    && Plain(GetArgument(args, "rootnamespace"))
    && Plain(GetArgument(args, "subnamespace"))
    && Plain(GetArgument(args, "basetestname"))
  }

  lemma PlainValues(args: Args, p: Placeholder)
    requires PlainArguments(args)
    ensures Plain(Value(p, args))
  {
    LcfirstKeepsUnderscores(GetArgument(args, "name"));
  }

  /** Underscore-free text in front keeps the first underscore doubled. */
  lemma DoubledLeadAfterText(a: string, j: string)
    requires Plain(a) && DoubledLead(j)
    ensures DoubledLead(a + j)
  {
    var s := a + j;
    forall m | 0 <= m < |s| && s[m] == '_' && Plain(s[..m])
      ensures m + 1 < |s| && s[m + 1] == '_'
    {
      var m' := m - |a|;
      assert s[m] == j[m'];
      assert s[..m] == a + j[..m'];
      assert s[m + 1] == j[m' + 1];
    }
  }

  /** The characters before an underscore-free prefix's end are not underscores. */
  lemma PlainPrefix(s: string, m: nat)
    requires m <= |s| && Plain(s[..m])
    ensures forall k :: 0 <= k < m ==> s[k] != '_'
  {
    forall k | 0 <= k < m ensures s[k] != '_' {
      assert s[..m][k] == s[k];
    }
  }

  /** A string that starts with "__" has its first underscore doubled. */
  lemma DoubledLeadAfterToken(t: string, j: string)
    requires |t| >= 2 && t[0] == '_' && t[1] == '_'
    ensures DoubledLead(t + j)
  {
    var s := t + j;
    forall m | 0 <= m < |s| && s[m] == '_' && Plain(s[..m])
      ensures m + 1 < |s| && s[m + 1] == '_'
    {
      assert s[0] == '_' && s[1] == '_';
      PlainPrefix(s, m);
      assert m == 0;
    }
  }

  lemma {:induction false} JoinDoubledLead(ps: seq<Piece>)
    requires WellFormed(ps)
    ensures DoubledLead(Join(ps))
  {
    if ps != [] {
      var rest := ps[1..];
      WellFormedTail(ps);
      JoinDoubledLead(rest);
      match ps[0]
      case Text(a) =>
        assert Plain(a) by { assert ps[0].Text?; }
        DoubledLeadAfterText(a, Join(rest));
      case Slot(p) =>
        TokenShape(p);
        DoubledLeadAfterToken(Token(p), Join(rest));
    }
  }

  lemma WellFormedTail(ps: seq<Piece>)
    requires WellFormed(ps) && ps != []
    ensures WellFormed(ps[1..])
  {
    var rest := ps[1..];
    forall i | 0 <= i < |rest| && rest[i].Text? ensures Plain(rest[i].text) {
      assert rest[i] == ps[i + 1];
    }
  }

  /** One pass over a well-formed template replaces exactly its slots of `q`. */
  lemma {:induction false} PassReplacesSlots(ps: seq<Piece>, q: Placeholder, v: string)
    requires WellFormed(ps)
    ensures StrReplace(Token(q), v, Join(ps)) == Join(Substitute(ps, q, v))
  {
    if ps == [] {
    } else {
      var rest := ps[1..];
      WellFormedTail(ps);
      PassReplacesSlots(rest, q, v);
      var j := Join(rest);
      assert Substitute(ps, q, v)[1..] == Substitute(rest, q, v);
      TokenShape(q);
      match ps[0]
      case Text(a) =>
        assert Plain(a) by { assert ps[0].Text?; }
        StrReplaceSkipFree(Token(q), v, a, j);
      case Slot(p) =>
        if p == q {
          StrReplaceAtStart(Token(q), v, j);
        } else {
          JoinDoubledLead(rest);
          StrReplaceSkipToken(p, q, v, j);
        }
    }
  }

  lemma {:induction false} SubstituteWellFormed(ps: seq<Piece>, q: Placeholder, v: string)
    requires WellFormed(ps) && Plain(v)
    ensures WellFormed(Substitute(ps, q, v))
  {
    if ps != [] {
      var rest := ps[1..];
      WellFormedTail(ps);
      SubstituteWellFormed(rest, q, v);
      var r := Substitute(ps, q, v);
      forall i | 0 <= i < |r| && r[i].Text? ensures Plain(r[i].text) {
        if i > 0 {
          assert r[i] == Substitute(rest, q, v)[i - 1];
        }
      }
    }
  }

  /** Substituting the five placeholders one after another is simultaneous substitution. */
  lemma {:induction false} FiveSubstitutionsExpand(ps: seq<Piece>, args: Args)
    ensures Join(Substitute(Substitute(Substitute(Substitute(Substitute(ps,
              BaseTestName, Value(BaseTestName, args)),
              RootNamespace, Value(RootNamespace, args)),
              TargetClassName, Value(TargetClassName, args)),
              SubNamespace, Value(SubNamespace, args)),
              LcTargetClassName, Value(LcTargetClassName, args)))
            == Expand(ps, args)
  {
    if ps != [] {
      var s1 := Substitute(ps, BaseTestName, Value(BaseTestName, args));
      var s2 := Substitute(s1, RootNamespace, Value(RootNamespace, args));
      var s3 := Substitute(s2, TargetClassName, Value(TargetClassName, args));
      var s4 := Substitute(s3, SubNamespace, Value(SubNamespace, args));
      var s5 := Substitute(s4, LcTargetClassName, Value(LcTargetClassName, args));
      SubstituteSplit(ps, BaseTestName, Value(BaseTestName, args));
      SubstituteSplit(s1, RootNamespace, Value(RootNamespace, args));
      SubstituteSplit(s2, TargetClassName, Value(TargetClassName, args));
      SubstituteSplit(s3, SubNamespace, Value(SubNamespace, args));
      SubstituteSplit(s4, LcTargetClassName, Value(LcTargetClassName, args));
      FiveSubstitutionsExpand(ps[1..], args);
      assert Spelling(s5[0]) == Filled(ps[0], args);
    }
  }

  /** One pass of substitution acts on the first piece and recurs on the rest. */
  lemma SubstituteSplit(ps: seq<Piece>, q: Placeholder, v: string)
    requires ps != []
    ensures var r := Substitute(ps, q, v);
      r != [] && r[0] == (if ps[0] == Slot(q) then Text(v) else ps[0]) && r[1..] == Substitute(ps[1..], q, v)
  {
  }

  /**
   * The rendering theorem: for a template made of underscore-free text and
   * placeholder tokens, and arguments without underscores, the sequential
   * passes of `str_replace` give exactly the simultaneous substitution.
   */
  lemma RenderExpands(ps: seq<Piece>, args: Args)
    requires WellFormed(ps) && PlainArguments(args)
    ensures Render(Join(ps), args) == Expand(ps, args)
  {
    RenderIsFivePasses(Join(ps), args);
    var v1, v2, v3 := Value(BaseTestName, args), Value(RootNamespace, args), Value(TargetClassName, args);
    var v4, v5 := Value(SubNamespace, args), Value(LcTargetClassName, args);
    PlainValues(args, BaseTestName);
    PlainValues(args, RootNamespace);
    PlainValues(args, TargetClassName);
    PlainValues(args, SubNamespace);
    PlainValues(args, LcTargetClassName);
    var ps1 := Substitute(ps, BaseTestName, v1);
    PassReplacesSlots(ps, BaseTestName, v1);
    SubstituteWellFormed(ps, BaseTestName, v1);
    var ps2 := Substitute(ps1, RootNamespace, v2);
    PassReplacesSlots(ps1, RootNamespace, v2);
    SubstituteWellFormed(ps1, RootNamespace, v2);
    var ps3 := Substitute(ps2, TargetClassName, v3);
    PassReplacesSlots(ps2, TargetClassName, v3);
    SubstituteWellFormed(ps2, TargetClassName, v3);
    var ps4 := Substitute(ps3, SubNamespace, v4);
    PassReplacesSlots(ps3, SubNamespace, v4);
    SubstituteWellFormed(ps3, SubNamespace, v4);
    PassReplacesSlots(ps4, LcTargetClassName, v5);
    FiveSubstitutionsExpand(ps, args);
  }

  lemma {:induction false} ExpandPlain(ps: seq<Piece>, args: Args)
    requires WellFormed(ps) && PlainArguments(args)
    ensures Plain(Expand(ps, args))
  {
    if ps != [] {
      var rest := ps[1..];
      WellFormedTail(ps);
      ExpandPlain(rest, args);
      match ps[0]
      case Text(a) =>
        assert ps[0].Text?;
      case Slot(p) =>
        PlainValues(args, p);
    }
  }

  /** A string without underscores contains nothing that starts with one. */
  lemma PlainHasNoUnderscoreWord(pat: string, s: string)
    requires Plain(s) && |pat| > 0 && pat[0] == '_'
    ensures !Occurs(pat, s)
  {
    forall i | 0 <= i <= |s|
      ensures !(pat <= s[i..])
    {
      if pat <= s[i..] {
        assert false;
      }
    }
  }

  /** Under the same conditions no placeholder token is left in the output. */
  lemma RenderLeavesNoToken(ps: seq<Piece>, args: Args, q: Placeholder)
    requires WellFormed(ps) && PlainArguments(args)
    ensures !Occurs(Token(q), Render(Join(ps), args))
  {
    RenderExpands(ps, args);
    ExpandPlain(ps, args);
    TokenShape(q);
    PlainHasNoUnderscoreWord(Token(q), Expand(ps, args));
  }

  /**
   * The passes are sequential, not simultaneous: when the class name is
   * itself the sub-namespace token, the class-name pass writes that token
   * and the next pass replaces it by the sub-namespace.
   */
  lemma RenderIsSequential(args: Args)
    requires GetArgument(args, "name") == Token(SubNamespace)
    requires Plain(GetArgument(args, "subnamespace"))
    ensures Expand([Slot(TargetClassName)], args) == Token(SubNamespace)
    ensures Render(Token(TargetClassName), args) == GetArgument(args, "subnamespace")
  {
    var sub := GetArgument(args, "subnamespace");
    assert [Slot(TargetClassName)] + [] == [Slot(TargetClassName)];
    ExpandCons(Slot(TargetClassName), [], args);
    RenderIsFivePasses(Token(TargetClassName), args);
    PassOnToken(TargetClassName, BaseTestName, Value(BaseTestName, args));
    PassOnToken(TargetClassName, RootNamespace, Value(RootNamespace, args));
    PassOnToken(TargetClassName, TargetClassName, Value(TargetClassName, args));
    PassOnToken(SubNamespace, SubNamespace, sub);
    TokenShape(LcTargetClassName);
    PlainHasNoUnderscoreWord(Token(LcTargetClassName), sub);
    StrReplaceAbsent(Token(LcTargetClassName), Value(LcTargetClassName, args), sub);
  }

  /** One pass over a lone token: its own value when it is that token, the token otherwise. */
  lemma PassOnToken(p: Placeholder, q: Placeholder, v: string)
    ensures StrReplace(Token(q), v, Token(p)) == if p == q then v else Token(p)
  {
    var t := Token(p);
    assert t + "" == t;
    assert StrReplace(Token(q), v, "") == "";
    if p == q {
      StrReplaceAtStart(Token(q), v, "");
    } else {
      assert DoubledLead("");
      StrReplaceSkipToken(p, q, v, "");
    }
  }

  // ---------------------------------------------------------------------
  // Lines of the shipped templates
  // ---------------------------------------------------------------------

  /** Joining distributes over a leading piece. */
  lemma JoinCons(x: Piece, rest: seq<Piece>)
    ensures Join([x] + rest) == Spelling(x) + Join(rest)
  {
    assert ([x] + rest)[1..] == rest;
  }

  /** Expanding distributes over a leading piece. */
  lemma ExpandCons(x: Piece, rest: seq<Piece>, args: Args)
    ensures Expand([x] + rest, args) == Filled(x, args) + Expand(rest, args)
  {
    assert ([x] + rest)[1..] == rest;
  }

  /** A leading piece keeps a well-formed template well formed when it is plain text or a slot. */
  lemma WellFormedCons(x: Piece, rest: seq<Piece>)
    requires x.Text? ==> Plain(x.text)
    requires WellFormed(rest)
    ensures WellFormed([x] + rest)
  {
    var ps := [x] + rest;
    assert forall i :: 0 < i < |ps| ==> ps[i] == rest[i - 1];
  }

  /** A line made of text, the class name, text, the lower-case class name and text. */
  function PropertyLine(a: string, b: string, c: string): seq<Piece> {
    [Text(a)] + ([Slot(TargetClassName)] + ([Text(b)] + ([Slot(LcTargetClassName)] + [Text(c)])))
  }

  /** What such a line spells and what it expands to. */
  lemma PropertyLineJoin(a: string, b: string, c: string, args: Args)
    ensures Join(PropertyLine(a, b, c)) == a + Token(TargetClassName) + b + Token(LcTargetClassName) + c
    ensures Expand(PropertyLine(a, b, c), args)
         == a + Value(TargetClassName, args) + b + Value(LcTargetClassName, args) + c
  {
    var p4 := [Text(c)];
    var p3 := [Slot(LcTargetClassName)] + p4;
    var p2 := [Text(b)] + p3;
    var p1 := [Slot(TargetClassName)] + p2;
    JoinCons(Text(c), []);
    JoinCons(Slot(LcTargetClassName), p4);
    JoinCons(Text(b), p3);
    JoinCons(Slot(TargetClassName), p2);
    JoinCons(Text(a), p1);
    ExpandCons(Text(c), [], args);
    ExpandCons(Slot(LcTargetClassName), p4, args);
    ExpandCons(Text(b), p3, args);
    ExpandCons(Slot(TargetClassName), p2, args);
    ExpandCons(Text(a), p1, args);
  }

  /** Such a line is well formed when its texts are plain. */
  lemma PropertyLineWellFormed(a: string, b: string, c: string)
    requires Plain(a) && Plain(b) && Plain(c)
    ensures WellFormed(PropertyLine(a, b, c))
  {
    var p4 := [Text(c)];
    var p3 := [Slot(LcTargetClassName)] + p4;
    var p2 := [Text(b)] + p3;
    var p1 := [Slot(TargetClassName)] + p2;
    assert WellFormed([]);
    WellFormedCons(Text(c), []);
    WellFormedCons(Slot(LcTargetClassName), p4);
    WellFormedCons(Text(b), p3);
    WellFormedCons(Slot(TargetClassName), p2);
    WellFormedCons(Text(a), p1);
  }

  /** The text of templates/TestTrait.php line 25, assembled from its pieces. */
  lemma PropertyLineSpelled()
    ensures "    protected " + Token(TargetClassName) + " $" + Token(LcTargetClassName) + ";"
         == "    protected __TARGET_CLASS_NAME__ $__LC_TARGET_CLASS_NAME__;"
  {
    PropertyLinePrefix();
    PropertyLineSuffix();
  }

  /** The first half of the property line, after the class-name token. */
  lemma PropertyLinePrefix()
    ensures "    protected " + Token(TargetClassName) + " $" == "    protected __TARGET_CLASS_NAME__ $"
  {
    assert "    protected " + "__TARGET_CLASS_NAME__" == "    protected __TARGET_CLASS_NAME__";
  }

  /** The second half of the property line, after the lower-case token. */
  lemma PropertyLineSuffix()
    ensures "    protected __TARGET_CLASS_NAME__ $" + Token(LcTargetClassName) + ";"
         == "    protected __TARGET_CLASS_NAME__ $__LC_TARGET_CLASS_NAME__;"
  {
    assert "    protected __TARGET_CLASS_NAME__ $" + "__LC_TARGET_CLASS_NAME__"
        == "    protected __TARGET_CLASS_NAME__ $__LC_TARGET_CLASS_NAME__";
  }


  /** The rendered line 25 for the class name Widget. */
  lemma PropertyLineFilled(args: Args)
    requires GetArgument(args, "name") == "Widget"
    ensures "    protected " + Value(TargetClassName, args) + " $" + Value(LcTargetClassName, args) + ";"
         == "    protected Widget $widget;"
  {
    assert Lcfirst("Widget") == "widget";
    assert "    protected " + "Widget" == "    protected Widget";
    assert "    protected Widget" + " $" == "    protected Widget $";
    assert "    protected Widget $" + "widget" == "    protected Widget $widget";
  }

  /** templates/TestTrait.php line 25, the one line that uses the lower-case token. */
  lemma TestTraitPropertyLine(args: Args)
    requires GetArgument(args, "name") == "Widget" && PlainArguments(args)
    ensures Render("    protected __TARGET_CLASS_NAME__ $__LC_TARGET_CLASS_NAME__;", args)
         == "    protected Widget $widget;"
  {
    var ps := PropertyLine("    protected ", " $", ";");
    PropertyLineJoin("    protected ", " $", ";", args);
    PropertyLineWellFormed("    protected ", " $", ";");
    PropertyLineSpelled();
    RenderExpands(ps, args);
    PropertyLineFilled(args);
  }

  /** A line made of text, the class name, text and the base test name. */
  function ClassLine(a: string, b: string): seq<Piece> {
    [Text(a)] + ([Slot(TargetClassName)] + ([Text(b)] + [Slot(BaseTestName)]))
  }

  /** What such a line spells and what it expands to. */
  lemma ClassLineJoin(a: string, b: string, args: Args)
    ensures Join(ClassLine(a, b)) == a + Token(TargetClassName) + b + Token(BaseTestName)
    ensures Expand(ClassLine(a, b), args) == a + Value(TargetClassName, args) + b + Value(BaseTestName, args)
  {
    var p3 := [Slot(BaseTestName)];
    var p2 := [Text(b)] + p3;
    var p1 := [Slot(TargetClassName)] + p2;
    JoinCons(Slot(BaseTestName), []);
    JoinCons(Text(b), p3);
    JoinCons(Slot(TargetClassName), p2);
    JoinCons(Text(a), p1);
    ExpandCons(Slot(BaseTestName), [], args);
    ExpandCons(Text(b), p3, args);
    ExpandCons(Slot(TargetClassName), p2, args);
    ExpandCons(Text(a), p1, args);
  }

  /** Such a line is well formed when its texts are plain. */
  lemma ClassLineWellFormed(a: string, b: string)
    requires Plain(a) && Plain(b)
    ensures WellFormed(ClassLine(a, b))
  {
    var p3 := [Slot(BaseTestName)];
    var p2 := [Text(b)] + p3;
    var p1 := [Slot(TargetClassName)] + p2;
    assert WellFormed([]);
    WellFormedCons(Slot(BaseTestName), []);
    WellFormedCons(Text(b), p3);
    WellFormedCons(Slot(TargetClassName), p2);
    WellFormedCons(Text(a), p1);
  }

  /** The text of templates/Test.php line 9, assembled from its pieces. */
  lemma ClassLineSpelled()
    ensures "class " + Token(TargetClassName) + "Test extends " + Token(BaseTestName)
         == "class __TARGET_CLASS_NAME__Test extends __BASE_TEST_NAME__"
  {
    ClassLinePrefix();
    assert "class __TARGET_CLASS_NAME__Test extends " + "__BASE_TEST_NAME__"
        == "class __TARGET_CLASS_NAME__Test extends __BASE_TEST_NAME__";
  }

  /** The class line up to the base-test token. */
  lemma ClassLinePrefix()
    ensures "class " + Token(TargetClassName) + "Test extends " == "class __TARGET_CLASS_NAME__Test extends "
  {
    assert "class " + "__TARGET_CLASS_NAME__" == "class __TARGET_CLASS_NAME__";
  }


  /** The rendered line 9 for the class Widget and the base test AppTest. */
  lemma ClassLineFilled(args: Args)
    requires GetArgument(args, "name") == "Widget" && GetArgument(args, "basetestname") == "AppTest"
    ensures "class " + Value(TargetClassName, args) + "Test extends " + Value(BaseTestName, args)
         == "class WidgetTest extends AppTest"
  {
    assert "class " + "Widget" == "class Widget";
    assert "class Widget" + "Test extends " == "class WidgetTest extends ";
    assert "class WidgetTest extends " + "AppTest" == "class WidgetTest extends AppTest";
  }

  /** templates/Test.php line 9, which puts text straight after a token. */
  lemma TestClassLine(args: Args)
    requires GetArgument(args, "name") == "Widget" && GetArgument(args, "basetestname") == "AppTest"
    requires PlainArguments(args)
    ensures Render("class __TARGET_CLASS_NAME__Test extends __BASE_TEST_NAME__", args)
         == "class WidgetTest extends AppTest"
  {
    var ps := ClassLine("class ", "Test extends ");
    ClassLineJoin("class ", "Test extends ", args);
    ClassLineWellFormed("class ", "Test extends ");
    ClassLineSpelled();
    RenderExpands(ps, args);
    ClassLineFilled(args);
  }
}
