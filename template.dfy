/**
 * Python's string.Template.safe_substitute, the substitution both Prompt.format
 * variants delegate to.
 *
 * The template is read left to right. Every '$' starts one of: an escape "$$"
 * (rendered as "$"), a named placeholder "$id", a braced placeholder "${id}",
 * or an ill-formed delimiter (left as "$"). An identifier is an ASCII letter or
 * '_' followed by ASCII letters, digits and '_', taken as long as possible. A
 * placeholder whose identifier is a key of the mapping becomes that key's value;
 * any other placeholder stays verbatim, and nothing is ever raised.
 */
module Template {

  /** One lexical piece of a template. */
  datatype Piece =
    | Text(c: char)       // an ordinary character
    | Escape              // "$$"
    | Named(id: string)   // "$id"
    | Braced(id: string)  // "${id}"
    | Invalid             // a "$" that starts nothing else

  predicate IsIdStart(c: char) {
    'a' <= c <= 'z' || 'A' <= c <= 'Z' || c == '_'
  }

  predicate IsIdChar(c: char) {
    IsIdStart(c) || '0' <= c <= '9'
  }

  predicate IsIdentifier(s: string) {
    |s| > 0 && IsIdStart(s[0]) && forall i :: 0 <= i < |s| ==> IsIdChar(s[i])
  }

  /** Length of the longest prefix of s made of identifier characters. */
  function IdRun(s: string): (n: nat)
    ensures n <= |s|
    ensures forall i :: 0 <= i < n ==> IsIdChar(s[i])
    ensures n < |s| ==> !IsIdChar(s[n])
  {
    if s == [] || !IsIdChar(s[0]) then 0 else 1 + IdRun(s[1..])
  }

  /** The identifier of a braced placeholder at the start of s ("${id}..."), if any. */
  predicate BracedAt(s: string) {
    |s| >= 3 && s[0] == '$' && s[1] == '{' && IsIdStart(s[2])
    && 2 + IdRun(s[2..]) < |s| && s[2 + IdRun(s[2..])] == '}'
  }

  /**
   * The first piece of a non-empty template and how many characters it takes.
   * The alternatives are tried in the order Python's pattern lists them.
   */
  function Next(t: string): (r: (Piece, nat))
    requires t != []
    ensures 1 <= r.1 <= |t|
    ensures Source(r.0) == t[..r.1]
  {
    if t[0] != '$' then (Text(t[0]), 1)
    else if |t| >= 2 && t[1] == '$' then (Escape, 2)
    else if |t| >= 2 && IsIdStart(t[1]) then
      var n := IdRun(t[1..]);
      assert t[..1 + n] == "$" + t[1..1 + n];
      (Named(t[1..1 + n]), 1 + n)
    else if BracedAt(t) then
      var n := IdRun(t[2..]);
      assert t[..3 + n] == "${" + t[2..2 + n] + "}";
      (Braced(t[2..2 + n]), 3 + n)
    else (Invalid, 1)
  }

  /** The pieces of a template, in order. */
  function Lex(t: string): seq<Piece>
    decreases |t|
  {
    if t == [] then [] else [Next(t).0] + Lex(t[Next(t).1..])
  }

  /** The text a piece was read from. */
  function Source(p: Piece): string {
    match p
    case Text(c) => [c]
    case Escape => "$$"
    case Named(id) => "$" + id
    case Braced(id) => Placeholder(id)
    case Invalid => "$"
  }

  /** The braced placeholder "${k}". */
  function Placeholder(k: string): string {
    "${" + k + "}"
  }

  /** What safe_substitute writes for a piece. */
  function Render(p: Piece, kwargs: map<string, string>): string {
    match p
    case Text(c) => [c]
    case Escape => "$"
    case Named(id) => if id in kwargs then kwargs[id] else Source(p)
    case Braced(id) => if id in kwargs then kwargs[id] else Source(p)
    case Invalid => "$"
  }

  function Unlex(ps: seq<Piece>): string {
    if ps == [] then [] else Source(ps[0]) + Unlex(ps[1..])
  }

  function Fill(ps: seq<Piece>, kwargs: map<string, string>): string {
    if ps == [] then [] else Render(ps[0], kwargs) + Fill(ps[1..], kwargs)
  }

  /** Template(t).safe_substitute(**kwargs) */
  function SafeSubstitute(t: string, kwargs: map<string, string>): string {
    Fill(Lex(t), kwargs)
  }

  predicate IsPlaceholder(p: Piece) {
    p.Named? || p.Braced?
  }

  /** The identifiers of the placeholders of t. */
  function Placeholders(t: string): set<string> {
    set p | p in Lex(t) && IsPlaceholder(p) :: p.id
  }

  /** The pieces cover the template exactly: reading them back gives t. */
  lemma {:induction false} LexUnlex(t: string)
    ensures Unlex(Lex(t)) == t
    decreases |t|
  {
    if t != [] {
      var p, n := Next(t).0, Next(t).1;
      LexUnlex(t[n..]);
      UnlexCons(p, Lex(t[n..]));
      SplitAt(t, n);
    }
  }

  lemma SplitAt(t: string, n: nat)
    requires n <= |t|
    ensures t[..n] + t[n..] == t
  {
  }

  lemma UnlexCons(p: Piece, ps: seq<Piece>)
    ensures Unlex([p] + ps) == Source(p) + Unlex(ps)
  {
    assert ([p] + ps)[1..] == ps;
  }

  /** Every placeholder names a well-formed identifier. */
  lemma {:induction false} LexIdentifiers(t: string)
    ensures forall p :: p in Lex(t) && IsPlaceholder(p) ==> IsIdentifier(p.id)
    decreases |t|
  {
    if t != [] {
      var (p, n) := Next(t);
      LexIdentifiers(t[n..]);
      assert Lex(t) == [p] + Lex(t[n..]);
      if p.Named? {
        assert forall i :: 0 <= i < |p.id| ==> p.id[i] == t[1..][i];
      } else if p.Braced? {
        assert forall i :: 0 <= i < |p.id| ==> p.id[i] == t[2..][i];
      }
    }
  }

  /** Pieces that render as their own source leave the text unchanged. */
  lemma {:induction false} FillVerbatim(ps: seq<Piece>, kwargs: map<string, string>)
    requires forall p :: p in ps ==> Render(p, kwargs) == Source(p)
    ensures Fill(ps, kwargs) == Unlex(ps)
  {
    if ps != [] {
      assert ps[0] in ps;
      assert forall p :: p in ps[1..] ==> p in ps;
      FillVerbatim(ps[1..], kwargs);
    }
  }

  /**
   * safe_substitute never fails on a missing key: when no placeholder of t is
   * supplied and t holds no "$$", the result is t itself.
   */
  lemma SubstituteUnsupplied(t: string, kwargs: map<string, string>)
    requires Placeholders(t) !! kwargs.Keys
    requires Escape !in Lex(t)
    ensures SafeSubstitute(t, kwargs) == t
  {
    forall p | p in Lex(t) ensures Render(p, kwargs) == Source(p) {
      if IsPlaceholder(p) {
        assert p.id in Placeholders(t);
      }
    }
    FillVerbatim(Lex(t), kwargs);
    LexUnlex(t);
  }

  /** Only the placeholders' keys matter: two mappings that agree on them substitute alike. */
  lemma {:induction false} FillAgree(ps: seq<Piece>, k1: map<string, string>, k2: map<string, string>)
    requires forall p :: p in ps && IsPlaceholder(p) ==>
      (p.id in k1 <==> p.id in k2) && (p.id in k1 ==> k1[p.id] == k2[p.id])
    ensures Fill(ps, k1) == Fill(ps, k2)
  {
    if ps != [] {
      assert ps[0] in ps;
      assert forall p :: p in ps[1..] ==> p in ps;
      FillAgree(ps[1..], k1, k2);
    }
  }

  /** Extra keyword arguments, naming no placeholder of t, have no effect. */
  lemma SubstituteIgnoresExtra(t: string, kwargs: map<string, string>, k: string, v: string)
    requires k !in Placeholders(t)
    ensures SafeSubstitute(t, kwargs[k := v]) == SafeSubstitute(t, kwargs)
  {
    forall p | p in Lex(t) && IsPlaceholder(p)
      ensures (p.id in kwargs[k := v] <==> p.id in kwargs)
      ensures p.id in kwargs ==> kwargs[k := v][p.id] == kwargs[p.id]
    {
      assert p.id in Placeholders(t);
    }
    FillAgree(Lex(t), kwargs[k := v], kwargs);
  }

  /** The pieces of a '$'-free text: one Text per character. */
  function Texts(s: string): seq<Piece> {
    if s == [] then [] else [Text(s[0])] + Texts(s[1..])
  }

  /** A text without '$' lexes as plain characters, also in front of anything else. */
  lemma {:induction false} LexPlainPrefix(pre: string, rest: string)
    requires '$' !in pre
    ensures Lex(pre + rest) == Texts(pre) + Lex(rest)
  {
    if pre != [] {
      var s := pre + rest;
      assert pre[0] in pre;
      assert s[0] == pre[0] && s[0] != '$';
      assert Next(s) == (Text(pre[0]), 1);
      assert s[1..] == pre[1..] + rest;
      assert forall c :: c in pre[1..] ==> c in pre;
      LexPlainPrefix(pre[1..], rest);
      assert Lex(s) == [Text(pre[0])] + (Texts(pre[1..]) + Lex(rest));
    } else {
      assert pre + rest == rest;
    }
  }

  lemma {:induction false} FillPlain(pre: string, kwargs: map<string, string>, rest: seq<Piece>)
    ensures Fill(Texts(pre) + rest, kwargs) == pre + Fill(rest, kwargs)
  {
    if pre != [] {
      var ps := Texts(pre) + rest;
      assert ps[0] == Text(pre[0]);
      assert ps[1..] == Texts(pre[1..]) + rest;
      FillPlain(pre[1..], kwargs, rest);
      assert Fill(ps, kwargs) == [pre[0]] + (pre[1..] + Fill(rest, kwargs));
      assert pre == [pre[0]] + pre[1..];
    } else {
      assert Texts(pre) + rest == rest;
    }
  }

  /** A template without '$' is returned unchanged whatever the mapping. */
  lemma SubstituteNoDollar(t: string, kwargs: map<string, string>)
    requires '$' !in t
    ensures SafeSubstitute(t, kwargs) == t
  {
    LexPlainPrefix(t, []);
    FillPlain(t, kwargs, []);
    assert t + [] == t;
  }

  /**
   * A braced placeholder behind '$'-free text is replaced by its value when the
   * key is supplied, and kept verbatim otherwise; the rest is substituted on its own.
   */
  lemma SubstituteBraced(pre: string, k: string, post: string, kwargs: map<string, string>)
    requires '$' !in pre && IsIdentifier(k)
    ensures SafeSubstitute(pre + (Placeholder(k) + post), kwargs)
         == pre + ((if k in kwargs then kwargs[k] else Placeholder(k)) + SafeSubstitute(post, kwargs))
  {
    var s := Placeholder(k) + post;
    var rest := Lex(post);
    LexPlainPrefix(pre, s);
    LexBraced(k, post);
    FillPlain(pre, kwargs, [Braced(k)] + rest);
    FillCons(Braced(k), rest, kwargs);
  }

  /**
   * A named placeholder "$k" behind '$'-free text, not followed by another
   * identifier character, is replaced by its value when the key is supplied,
   * and kept verbatim otherwise; the rest is substituted on its own.
   */
  lemma SubstituteNamed(pre: string, k: string, post: string, kwargs: map<string, string>)
    requires '$' !in pre && IsIdentifier(k)
    requires post == [] || !IsIdChar(post[0])
    ensures SafeSubstitute(pre + ("$" + (k + post)), kwargs)
         == pre + ((if k in kwargs then kwargs[k] else "$" + k) + SafeSubstitute(post, kwargs))
  {
    var s := "$" + (k + post);
    var rest := Lex(post);
    LexPlainPrefix(pre, s);
    LexNamed(k, post);
    FillPlain(pre, kwargs, [Named(k)] + rest);
    FillCons(Named(k), rest, kwargs);
  }

  /** "$k" with k an identifier, followed by a character that cannot extend it, is one named piece. */
  lemma LexNamed(k: string, post: string)
    requires IsIdentifier(k)
    requires post == [] || !IsIdChar(post[0])
    ensures Lex("$" + (k + post)) == [Named(k)] + Lex(post)
  {
    var s := "$" + (k + post);
    assert s[1..] == k + post;
    IdRunOfChars(k, post);
    assert s[1] == k[0];
    assert s[1..1 + |k|] == k;
    assert s[1 + |k|..] == post;
    assert Next(s) == (Named(k), 1 + |k|);
  }

  /** "${k}" with k an identifier is one braced piece. */
  lemma LexBraced(k: string, post: string)
    requires IsIdentifier(k)
    ensures Lex(Placeholder(k) + post) == [Braced(k)] + Lex(post)
  {
    var s := Placeholder(k) + post;
    assert s[2..] == k + ("}" + post);
    IdRunOfChars(k, "}" + post);
    assert BracedAt(s);
    assert s[2..2 + |k|] == k;
    assert s[3 + |k|..] == post;
    assert Next(s) == (Braced(k), 3 + |k|);
  }

  lemma FillCons(p: Piece, ps: seq<Piece>, kwargs: map<string, string>)
    ensures Fill([p] + ps, kwargs) == Render(p, kwargs) + Fill(ps, kwargs)
  {
    assert ([p] + ps)[1..] == ps;
  }

  /** A run of identifier characters followed by anything else is read whole. */
  lemma {:induction false} IdRunOfChars(k: string, rest: string)
    requires forall i :: 0 <= i < |k| ==> IsIdChar(k[i])
    requires rest == [] || !IsIdChar(rest[0])
    ensures IdRun(k + rest) == |k|
  {
    if k != [] {
      assert (k + rest)[1..] == k[1..] + rest;
      IdRunOfChars(k[1..], rest);
    }
  }
}
