/** The offline part of the Wikipedia image lookup
    (internal/image/wikipedia.go): the article titles tried for an object
    name, the rule that marks a name as likely to hit a disambiguation page,
    and the order in which `searchArticle` settles on a title. The
    encyclopedia's answers ("does this article exist", "is it a
    disambiguation page", the search API's titles) are parameters. */
module ImageWikipedia {
  import opened Wrappers
  import opened Text

  // ------------------------------------------------------------ Greek letters

  /** The Latin names of the Greek letters and the letters themselves, in
      the order the map literal lists them. */
  const GreekLetters: seq<(string, string)> := [
    ("alpha", "α"), ("beta", "β"), ("gamma", "γ"), ("delta", "δ"),
    ("epsilon", "ε"), ("zeta", "ζ"), ("eta", "η"), ("theta", "θ"),
    ("iota", "ι"), ("kappa", "κ"), ("lambda", "λ"), ("mu", "μ"),
    ("nu", "ν"), ("xi", "ξ"), ("omicron", "ο"), ("pi", "π"),
    ("rho", "ρ"), ("sigma", "σ"), ("tau", "τ"), ("upsilon", "υ"),
    ("phi", "φ"), ("chi", "χ"), ("psi", "ψ"), ("omega", "ω")
  ]

  /** An order in which `range` may visit the map: every entry, each
      exactly once (Go leaves the order unspecified). */
  predicate IsVisitOrder(order: seq<(string, string)>) {
    && |order| == |GreekLetters|
    && (forall k :: 0 <= k < |order| ==> order[k] in GreekLetters)
    && (forall k :: 0 <= k < |GreekLetters| ==> GreekLetters[k] in order)
    && NamedLetters(order)
  }

  /** `strings.Title` of a one-word lower-case name. */
  function Title(word: string): string {
    if word == [] then [] else [UpperChar(word[0])] + word[1..]
  }

  /** Whether the lower-cased name mentions the Latin name of letter `e`. */
  predicate MentionsLetter(name: string, e: (string, string)) {
    Contains(ToLower(name), e.0)
  }

  /** The two variants letter `e` adds: the lower-case and the title-case
      occurrences of its Latin name replaced by the letter. */
  function LetterVariants(name: string, e: (string, string)): seq<string>
    requires e.0 != []
  {
    [ReplaceAll(name, e.0, e.1), ReplaceAll(name, Title(e.0), e.1)]
  }

  predicate NamedLetters(order: seq<(string, string)>) {
    forall k :: 0 <= k < |order| ==> order[k].0 != []
  }

  /** The Greek-letter variants when the map is visited in `order`. */
  function GreekVariants(name: string, order: seq<(string, string)>): seq<string>
    requires NamedLetters(order)
  {
    if order == [] then []
    else
      var e := order[|order| - 1];
      GreekVariants(name, order[..|order| - 1])
        + (if MentionsLetter(name, e) then LetterVariants(name, e) else [])
  }

  /** Whatever the visiting order, a string is a Greek variant exactly when
      it is one of the two variants of a visited letter the name
      mentions. */
  lemma {:induction false} GreekVariantsMembers(name: string, order: seq<(string, string)>, s: string)
    requires NamedLetters(order)
    ensures s in GreekVariants(name, order) <==>
      exists k :: 0 <= k < |order| && MentionsLetter(name, order[k]) && s in LetterVariants(name, order[k])
  {
    if order != [] {
      var init := order[..|order| - 1];
      var e := order[|order| - 1];
      GreekVariantsMembers(name, init, s);
      if s in GreekVariants(name, order) && s !in GreekVariants(name, init) {
        assert MentionsLetter(name, order[|order| - 1]) && s in LetterVariants(name, order[|order| - 1]);
      }
      if exists k :: 0 <= k < |order| && MentionsLetter(name, order[k]) && s in LetterVariants(name, order[k]) {
        var k :| 0 <= k < |order| && MentionsLetter(name, order[k]) && s in LetterVariants(name, order[k]);
        if k < |order| - 1 {
          assert init[k] == order[k];
        }
      }
    }
  }

  /** Each mentioned letter contributes two variants, and a name that
      mentions none gets none. */
  lemma {:induction false} GreekVariantsLength(name: string, order: seq<(string, string)>)
    requires NamedLetters(order)
    ensures |GreekVariants(name, order)| % 2 == 0
    ensures (forall k :: 0 <= k < |order| ==> !MentionsLetter(name, order[k])) ==> GreekVariants(name, order) == []
  {
    if order != [] {
      var init := order[..|order| - 1];
      GreekVariantsLength(name, init);
      assert forall k :: 0 <= k < |init| ==> init[k] == order[k];
    }
  }

  // ------------------------------------------------------------ name variants

  /** The Messier test: the upper-cased name starts with "M" and the name
      is longer than one byte. */
  predicate MessierLike(name: string) {
    UpperHasPrefix(name, "M") && Utf8Len(name) > 1
  }

  function MessierVariants(name: string): seq<string> {
    if MessierLike(name) && name[1..] != "" then ["Messier " + name[1..]] else []
  }

  function CatalogueVariants(name: string): seq<string> {
    (if UpperHasPrefix(name, "NGC") then [ReplaceAll(name, "NGC", "NGC ")] else [])
      + (if UpperHasPrefix(name, "IC") && Utf8Len(name) > 2 then [ReplaceAll(name, "IC", "IC ")] else [])
  }

  /** The clarifying suffixes, tried last and in this order. */
  function ClarifiedVariants(name: string): seq<string> {
    [name + " (star)", name + " (constellation)", name + " (galaxy)",
     name + " (nebula)", name + " (planet)", name + " (cluster)"]
  }

  /** `generateNameVariants`, the Greek letters visited in `order`. */
  function NameVariants(name: string, order: seq<(string, string)>): seq<string>
    requires IsVisitOrder(order)
  {
    MessierVariants(name) + [name] + CatalogueVariants(name) + GreekVariants(name, order) + ClarifiedVariants(name)
  }

  lemma AppendAssociative(a: seq<string>, b: seq<string>, c: seq<string>)
    ensures (a + b) + c == a + (b + c)
  {
  }

  /** The Greek-letter loop of `generateNameVariants`: for each visited
      letter the lower-cased name mentions, two appends. */
  method AppendGreekVariants(before: seq<string>, name: string, order: seq<(string, string)>)
    returns (variants: seq<string>)
    requires NamedLetters(order)
    ensures variants == before + GreekVariants(name, order)
  {
    variants := before;
    var lowerName := ToLower(name);
    for k := 0 to |order|
      invariant variants == before + GreekVariants(name, order[..k])
    {
      assert order[..k + 1][..k] == order[..k] && order[..k + 1][k] == order[k];
      var (latin, greek) := order[k];
      ghost var added := if MentionsLetter(name, order[k]) then LetterVariants(name, order[k]) else [];
      assert GreekVariants(name, order[..k + 1]) == GreekVariants(name, order[..k]) + added;
      AppendAssociative(before, GreekVariants(name, order[..k]), added);
      if Contains(lowerName, latin) {
        ghost var start := variants;
        variants := variants + [ReplaceAll(name, latin, greek)];
        variants := variants + [ReplaceAll(name, Title(latin), greek)];
        assert variants == start + added;
      }
    }
    assert order[..|order|] == order;
  }

  /** `generateNameVariants` as the source builds it, one `append` at a
      time. */
  method GenerateNameVariants(name: string, order: seq<(string, string)>) returns (variants: seq<string>)
    requires IsVisitOrder(order)
    ensures variants == NameVariants(name, order)
  {
    variants := [];
    if UpperHasPrefix(name, "M") && Utf8Len(name) > 1 {
      var num := name[1..];
      if num != "" {
        variants := variants + ["Messier " + num];
      }
    }
    assert variants == MessierVariants(name);
    variants := variants + [name];
    ghost var named := variants;
    if UpperHasPrefix(name, "NGC") {
      variants := variants + [ReplaceAll(name, "NGC", "NGC ")];
    }
    if UpperHasPrefix(name, "IC") && Utf8Len(name) > 2 {
      variants := variants + [ReplaceAll(name, "IC", "IC ")];
    }
    assert variants == named + CatalogueVariants(name);
    variants := AppendGreekVariants(variants, name, order);
    ghost var greekDone := variants;
    variants := variants + [name + " (star)", name + " (constellation)", name + " (galaxy)",
                            name + " (nebula)", name + " (planet)", name + " (cluster)"];
    assert greekDone == MessierVariants(name) + [name] + CatalogueVariants(name) + GreekVariants(name, order);
  }

  /** A Messier-like name always has more than one character, because its
      first character is the one-byte 'M' or 'm'. */
  lemma MessierLikeLong(name: string)
    requires MessierLike(name)
    ensures |name| > 1 && (name[0] == 'M' || name[0] == 'm')
  {
    assert ToUpper(name)[0] == 'M';
  }

  /** The first variants: "Messier <rest>" for a Messier-like name, then
      the name itself; otherwise the name itself comes first. */
  lemma VariantsStart(name: string, order: seq<(string, string)>)
    requires IsVisitOrder(order)
    ensures var v := NameVariants(name, order);
      if MessierLike(name) then v[0] == "Messier " + name[1..] && v[1] == name else v[0] == name
  {
    if MessierLike(name) {
      MessierLikeLong(name);
    }
  }

  /** The last six variants are the name with the clarifying suffixes, in
      order, and there are always at least seven variants. */
  lemma VariantsEnd(name: string, order: seq<(string, string)>)
    requires IsVisitOrder(order)
    ensures var v := NameVariants(name, order);
      |v| >= 7 && v[|v| - 6..] == ClarifiedVariants(name)
  {
    var v := NameVariants(name, order);
    var head := MessierVariants(name) + [name] + CatalogueVariants(name) + GreekVariants(name, order);
    assert v == head + ClarifiedVariants(name);
    assert v[|v| - 6..] == ClarifiedVariants(name);
  }

  /** Every catalogue and Greek-letter rule adds its variants whatever the
      map's visiting order, and a letter the name does not mention adds
      nothing. */
  lemma VariantsRules(name: string, order: seq<(string, string)>, s: string)
    requires IsVisitOrder(order)
    ensures var v := NameVariants(name, order);
      && (UpperHasPrefix(name, "NGC") ==> ReplaceAll(name, "NGC", "NGC ") in v)
      && (UpperHasPrefix(name, "IC") && Utf8Len(name) > 2 ==> ReplaceAll(name, "IC", "IC ") in v)
      && (s in GreekVariants(name, order) <==>
            exists k :: 0 <= k < |order| && MentionsLetter(name, order[k]) && s in LetterVariants(name, order[k]))
  {
    var v := NameVariants(name, order);
    var cat := CatalogueVariants(name);
    assert v == MessierVariants(name) + [name] + cat + GreekVariants(name, order) + ClarifiedVariants(name);
    assert forall c :: c in cat ==> c in v;
    GreekVariantsMembers(name, order, s);
  }

  /** `mightBeAmbiguous`: the upper-cased name starts with "M" and is at most
      four bytes long. */
  predicate MightBeAmbiguous(name: string) {
    UpperHasPrefix(name, "M") && Utf8Len(name) <= 4
  }

  // ------------------------------------------------------------ choosing the article

  /** A variant `searchArticle` settles on in its first pass: not the
      original name when that is ambiguous, an existing article (a failed
      request counts as missing), and not a disambiguation page (a failed
      request counts as not one). */
  predicate Acceptable(v: string, name: string, hasArticle: string -> bool, disambiguation: string -> bool) {
    !(v == name && MightBeAmbiguous(name)) && hasArticle(v) && !disambiguation(v)
  }

  /** The first acceptable variant. */
  function FirstAcceptable(vs: seq<string>, name: string, hasArticle: string -> bool, disambiguation: string -> bool): Option<string> {
    if vs == [] then None
    else if Acceptable(vs[0], name, hasArticle, disambiguation) then Some(vs[0])
    else FirstAcceptable(vs[1..], name, hasArticle, disambiguation)
  }

  lemma {:induction false} FirstAcceptableSpec(vs: seq<string>, name: string, hasArticle: string -> bool, disambiguation: string -> bool)
    ensures FirstAcceptable(vs, name, hasArticle, disambiguation) == None <==>
      forall j :: 0 <= j < |vs| ==> !Acceptable(vs[j], name, hasArticle, disambiguation)
    ensures FirstAcceptable(vs, name, hasArticle, disambiguation).Some? ==>
      exists k :: 0 <= k < |vs| && vs[k] == FirstAcceptable(vs, name, hasArticle, disambiguation).value
        && Acceptable(vs[k], name, hasArticle, disambiguation)
        && forall j :: 0 <= j < k ==> !Acceptable(vs[j], name, hasArticle, disambiguation)
  {
    if vs != [] && !Acceptable(vs[0], name, hasArticle, disambiguation) {
      FirstAcceptableSpec(vs[1..], name, hasArticle, disambiguation);
      if FirstAcceptable(vs[1..], name, hasArticle, disambiguation).Some? {
        var k :| 0 <= k < |vs[1..]| && vs[1..][k] == FirstAcceptable(vs[1..], name, hasArticle, disambiguation).value
          && Acceptable(vs[1..][k], name, hasArticle, disambiguation)
          && forall j :: 0 <= j < k ==> !Acceptable(vs[1..][j], name, hasArticle, disambiguation);
        assert forall j :: 0 < j <= k ==> vs[j] == vs[1..][j - 1];
      } else {
        assert forall j :: 0 < j < |vs| ==> vs[j] == vs[1..][j - 1];
      }
    }
  }

  /** The search API's answer: the titles it lists, or the request's
      error. */
  type SearchAnswer = Result<seq<string>, string>

  /** `searchArticle`: the first acceptable variant; failing that, the name
      itself if it is an existing article and not a disambiguation page;
      failing that, the search API's first title. */
  function Article(name: string, order: seq<(string, string)>, hasArticle: string -> bool, disambiguation: string -> bool,
                   search: SearchAnswer): Result<string, string>
    requires IsVisitOrder(order)
  {
    match FirstAcceptable(NameVariants(name, order), name, hasArticle, disambiguation)
    case Some(v) => Ok(v)
    case None =>
      if hasArticle(name) && !disambiguation(name) then Ok(name)
      else match search
        case Err(e) => Err(e)
        case Ok(titles) =>
          if titles == [] then Err("no Wikipedia article found for \"" + name + "\"") else Ok(titles[0])
  }

  /** `searchArticle` as a loop over the variants with an early return. */
  method SearchArticle(name: string, order: seq<(string, string)>, hasArticle: string -> bool, disambiguation: string -> bool,
                       search: SearchAnswer) returns (r: Result<string, string>)
    requires IsVisitOrder(order)
    ensures r == Article(name, order, hasArticle, disambiguation, search)
  {
    var variants := GenerateNameVariants(name, order);
    for k := 0 to |variants|
      invariant FirstAcceptable(variants, name, hasArticle, disambiguation)
        == FirstAcceptable(variants[k..], name, hasArticle, disambiguation)
    {
      var variant := variants[k];
      assert variants[k..][0] == variant && variants[k..][1..] == variants[k + 1..];
      assert FirstAcceptable(variants[k..], name, hasArticle, disambiguation)
        == if Acceptable(variant, name, hasArticle, disambiguation) then Some(variant)
           else FirstAcceptable(variants[k + 1..], name, hasArticle, disambiguation);
      if variant == name && MightBeAmbiguous(name) {
        continue;
      }
      if hasArticle(variant) {
        if disambiguation(variant) {
          continue;
        }
        return Ok(variant);
      }
    }
    if hasArticle(name) && !disambiguation(name) {
      return Ok(name);
    }
    match search {
      case Err(e) => r := Err(e);
      case Ok(titles) =>
        if titles == [] {
          r := Err("no Wikipedia article found for \"" + name + "\"");
        } else {
          r := Ok(titles[0]);
        }
    }
  }

  /** The exact-name retry can only succeed for an ambiguous name: any other
      name is itself a variant and would have been taken in the first
      pass. A non-ambiguous name with an existing, non-disambiguation
      article therefore always resolves through the variants. */
  lemma ExactRetryOnlyForAmbiguous(name: string, order: seq<(string, string)>, hasArticle: string -> bool, disambiguation: string -> bool)
    requires IsVisitOrder(order)
    requires hasArticle(name) && !disambiguation(name) && !MightBeAmbiguous(name)
    ensures FirstAcceptable(NameVariants(name, order), name, hasArticle, disambiguation).Some?
  {
    var v := NameVariants(name, order);
    var m := |MessierVariants(name)|;
    assert v[m] == name;
    FirstAcceptableSpec(v, name, hasArticle, disambiguation);
  }

  /** An ambiguous Messier designation such as "M31" resolves to
      "Messier 31" when that article exists and is not a disambiguation
      page, before the name itself is ever looked up. */
  lemma MessierFirst(name: string, order: seq<(string, string)>, hasArticle: string -> bool, disambiguation: string -> bool,
                     search: SearchAnswer)
    requires IsVisitOrder(order) && MessierLike(name)
    requires hasArticle("Messier " + name[1..]) && !disambiguation("Messier " + name[1..])
    ensures Article(name, order, hasArticle, disambiguation, search) == Ok("Messier " + name[1..])
  {
    VariantsStart(name, order);
    var v := NameVariants(name, order);
    assert v[0] != name;
  }
}
