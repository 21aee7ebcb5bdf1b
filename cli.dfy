/**
 The command-line front end's preset resolver: from the chosen command and the
 scope flags it builds the key under which the default configuration is
 looked up (`l_page_todomain`, `a_ptp`, ...).
 */
module Cli {
  import opened Results

  /** The parsed command line as the resolver reads it. */
  datatype Args = Args(
    command: string,
    src: string,
    dest: string,
    onePage: bool,
    manyPages: bool,
    phrase: bool,
    term: bool,
    json: bool,
    csv: bool,
    domainMode: bool,
    subdomainMode: bool,
    pageMode: bool)

  /** Returning the key when no branch assigned it (Python's UnboundLocalError). */
  datatype PresetError = UnboundPreset

  /** What a preset key encodes: the family, the first choice and the granularity. */
  datatype LinkScope = OnePage | ManyPages | NoLinkScope
  datatype MatchKind = Phrase | Term | NoMatchKind
  datatype Granularity = Domain | Subdomain | Page | NoGranularity
  datatype Choice =
    | LinksChoice(scope: LinkScope, granularity: Granularity)
    | AnchorChoice(kind: MatchKind, granularity: Granularity)

  /** One page per linking domain wins over many pages. */
  function LinkScopeOf(args: Args): LinkScope {
    if args.onePage then OnePage else if args.manyPages then ManyPages else NoLinkScope
  }

  /** Phrase matching wins over term matching. */
  function MatchKindOf(args: Args): MatchKind {
    if args.phrase then Phrase else if args.term then Term else NoMatchKind
  }

  /** Domain wins over subdomain, which wins over page. */
  function GranularityOf(args: Args): Granularity {
    if args.domainMode then Domain
    else if args.subdomainMode then Subdomain
    else if args.pageMode then Page
    else NoGranularity
  }

  /** The choice the flags select, for the two commands that have presets. */
  function Resolve(args: Args): Option<Choice> {
    if args.command == "links" then Some(LinksChoice(LinkScopeOf(args), GranularityOf(args)))
    else if args.command == "anchor" then Some(AnchorChoice(MatchKindOf(args), GranularityOf(args)))
    else None
  }

  function LinkScopeText(s: LinkScope): string {
    match s
    case OnePage => "domain_to"
    case ManyPages => "page_to"
    case NoLinkScope => ""
  }

  function LinkGranularityText(g: Granularity): string {
    match g
    case Domain => "domain"
    case Subdomain => "subdomain"
    case Page => "page"
    case NoGranularity => ""
  }

  function MatchKindText(k: MatchKind): string {
    match k
    case Phrase => "pt"
    case Term => "tt"
    case NoMatchKind => ""
  }

  function AnchorGranularityText(g: Granularity): string {
    match g
    case Domain => "d"
    case Subdomain => "s"
    case Page => "p"
    case NoGranularity => ""
  }

  /** The abbreviation table: how a choice is spelled as a key. */
  function KeyOf(c: Choice): string {
    match c
    case LinksChoice(s, g) => "l_" + LinkScopeText(s) + LinkGranularityText(g)
    case AnchorChoice(k, g) => "a_" + MatchKindText(k) + AnchorGranularityText(g)
  }

  /** The key `get_preset` produces, or the error it raises. */
  function PresetKey(args: Args): Result<string, PresetError> {
    match Resolve(args)
    case None => Err(UnboundPreset)
    case Some(c) => Ok(KeyOf(c))
  }

  predicate HasPrefix(p: string, s: string) {
    |p| <= |s| && s[..|p|] == p
  }

  function ParseLinkGranularity(u: string): Option<Granularity> {
    if u == "domain" then Some(Domain)
    else if u == "subdomain" then Some(Subdomain)
    else if u == "page" then Some(Page)
    else if u == "" then Some(NoGranularity)
    else None
  }

  function ParseAnchorGranularity(u: string): Option<Granularity> {
    if u == "d" then Some(Domain)
    else if u == "s" then Some(Subdomain)
    else if u == "p" then Some(Page)
    else if u == "" then Some(NoGranularity)
    else None
  }

  function ParseLinks(t: string): Option<Choice> {
    var (scope, rest) :=
      if HasPrefix("domain_to", t) then (OnePage, t[9..])
      else if HasPrefix("page_to", t) then (ManyPages, t[7..])
      else (NoLinkScope, t);
    match ParseLinkGranularity(rest)
    case None => None
    case Some(g) => Some(LinksChoice(scope, g))
  }

  function ParseAnchor(t: string): Option<Choice> {
    var (kind, rest) :=
      if HasPrefix("pt", t) then (Phrase, t[2..])
      else if HasPrefix("tt", t) then (Term, t[2..])
      else (NoMatchKind, t);
    match ParseAnchorGranularity(rest)
    case None => None
    case Some(g) => Some(AnchorChoice(kind, g))
  }

  /** Reads a key back into the choice it spells. */
  function ParseKey(key: string): Option<Choice> {
    if HasPrefix("l_", key) then ParseLinks(key[2..])
    else if HasPrefix("a_", key) then ParseAnchor(key[2..])
    else None
  }

  lemma ParseLinksOf(s: LinkScope, g: Granularity)
    ensures ParseLinks(LinkScopeText(s) + LinkGranularityText(g)) == Some(LinksChoice(s, g))
  {
    var u := LinkGranularityText(g);
    var t := LinkScopeText(s) + u;
    match s
    case OnePage =>
      assert HasPrefix("domain_to", t) && t[9..] == u;
    case ManyPages =>
      assert !HasPrefix("domain_to", t) by {
        if |t| >= 9 { assert t[2] != "domain_to"[2]; }
      }
      assert HasPrefix("page_to", t) && t[7..] == u;
    case NoLinkScope =>
      assert t == u;
      assert !HasPrefix("domain_to", t) by {
        if |t| >= 9 { assert t[0] != "domain_to"[0]; }
      }
      assert !HasPrefix("page_to", t) by {
        if |t| >= 7 { assert t[1] != "page_to"[1]; }
      }
  }

  lemma ParseAnchorOf(k: MatchKind, g: Granularity)
    ensures ParseAnchor(MatchKindText(k) + AnchorGranularityText(g)) == Some(AnchorChoice(k, g))
  {
    var u := AnchorGranularityText(g);
    var t := MatchKindText(k) + u;
    match k
    case Phrase =>
      assert HasPrefix("pt", t) && t[2..] == u;
    case Term =>
      assert !HasPrefix("pt", t) by { assert t[0] != "pt"[0]; }
      assert HasPrefix("tt", t) && t[2..] == u;
    case NoMatchKind =>
      assert t == u && |u| <= 1;
  }

  /** Decoding undoes encoding, so every choice has its own key. */
  lemma ParseKeyOf(c: Choice)
    ensures ParseKey(KeyOf(c)) == Some(c)
  {
    var key := KeyOf(c);
    match c
    case LinksChoice(s, g) =>
      assert HasPrefix("l_", key) && key[2..] == LinkScopeText(s) + LinkGranularityText(g);
      ParseLinksOf(s, g);
    case AnchorChoice(k, g) =>
      assert !HasPrefix("l_", key) by { assert key[0] != "l_"[0]; }
      assert HasPrefix("a_", key) && key[2..] == MatchKindText(k) + AnchorGranularityText(g);
      ParseAnchorOf(k, g);
  }

  /**
   Keys never collide: two resolutions give the same key only when they are the
   same family with the same first choice and the same granularity.
   */
  lemma PresetKeyInjective(a1: Args, a2: Args)
    requires PresetKey(a1).Ok? && PresetKey(a1) == PresetKey(a2)
    ensures Resolve(a1) == Resolve(a2)
    ensures a1.command == a2.command
  {
    ParseKeyOf(Resolve(a1).value);
    ParseKeyOf(Resolve(a2).value);
  }

  /** `links` keys start with `l_`, `anchor` keys with `a_`; every other command has no key. */
  lemma PresetKeyFamilies(args: Args)
    ensures args.command == "links" ==> PresetKey(args).Ok? && PresetKey(args).value[..2] == "l_"
    ensures args.command == "anchor" ==> PresetKey(args).Ok? && PresetKey(args).value[..2] == "a_"
    ensures PresetKey(args).Ok? <==> args.command == "links" || args.command == "anchor"
  {
  }

  /** The key depends only on the command and the scope and granularity flags. */
  lemma PresetKeyIgnoresIo(a1: Args, a2: Args)
    requires a1.command == a2.command
    requires a1.onePage == a2.onePage && a1.manyPages == a2.manyPages
    requires a1.phrase == a2.phrase && a1.term == a2.term
    requires a1.domainMode == a2.domainMode && a1.subdomainMode == a2.subdomainMode && a1.pageMode == a2.pageMode
    ensures PresetKey(a1) == PresetKey(a2)
  {
  }

  /** Fixed vectors, including the parser's own `anchor-text` and `bulk-url-metrics` choices. */
  lemma PresetKeyVectors(src: string, dest: string)
    ensures PresetKey(Args("links", src, dest, false, true, false, true, true, false, true, false, false)) == Ok("l_page_todomain")
    ensures PresetKey(Args("anchor", src, dest, false, true, true, true, true, false, false, false, true)) == Ok("a_ptp")
    ensures PresetKey(Args("anchor-text", src, dest, false, true, true, true, true, false, false, false, true)) == Err(UnboundPreset)
    ensures PresetKey(Args("bulk-url-metrics", src, dest, false, true, false, true, true, false, false, false, false)) == Err(UnboundPreset)
  {
    assert "l_" + "page_to" + "domain" == "l_page_todomain";
    assert "a_" + "pt" + "p" == "a_ptp";
  }

  /**
   get_preset: the key is built by appending to a local variable branch by
   branch; a command with no preset branch leaves the variable unassigned.
   */
  method GetPreset(args: Args) returns (r: Result<string, PresetError>)
    ensures r == PresetKey(args)
    ensures r.Ok? <==> args.command == "links" || args.command == "anchor"
  {
    var preset: Option<string> := None;
    if args.command == "url-metrics" || args.command == "batch-url-metrics" {
    } else if args.command == "top-pages" {
    } else if args.command == "bulk-metrics" {
    } else if args.command == "links" {
      var key := "l_";
      if args.onePage {
        key := key + "domain_to";
      } else if args.manyPages {
        key := key + "page_to";
      }
      if args.domainMode {
        key := key + "domain";
      } else if args.subdomainMode {
        key := key + "subdomain";
      } else if args.pageMode {
        key := key + "page";
      }
      assert key == KeyOf(LinksChoice(LinkScopeOf(args), GranularityOf(args)));
      preset := Some(key);
    } else if args.command == "anchor" {
      var key := "a_";
      if args.phrase {
        key := key + "pt";
      } else if args.term {
        key := key + "tt";
      }
      if args.domainMode {
        key := key + "d";
      } else if args.subdomainMode {
        key := key + "s";
      } else if args.pageMode {
        key := key + "p";
      }
      assert key == KeyOf(AnchorChoice(MatchKindOf(args), GranularityOf(args)));
      preset := Some(key);
    }
    if preset.None? {
      return Err(UnboundPreset);
    }
    return Ok(preset.value);
  }
}
