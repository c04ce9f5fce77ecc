/** Front-matter policy.  The YAML parser and the `---` delimiter extraction
    are outside this model: a file's front matter arrives already parsed, as
    the set of fields present plus the value of `subcategory` (which counts
    only when that field is present), or as a parse failure. */
module FrontMatter {
  import opened Wrappers

  /** The fields a policy can require or forbid. */
  datatype Field = Description | Layout | PageTitle | SidebarCurrent | Subcategory

  /** A parsed metadata block.  `subcategory` is the value of the
      subcategory field and is ignored when that field is absent.  An empty
      source parses to `Block({}, "")`. */
  datatype Metadata =
    | Malformed(reason: string)
    | Block(fields: set<Field>, subcategory: string)

  datatype FrontMatterOptions = FrontMatterOptions(
    allowedSubcategories: seq<string>,
    noDescription: bool,
    noLayout: bool,
    noPageTitle: bool,
    noSidebarCurrent: bool,
    noSubcategory: bool,
    requireDescription: bool,
    requireLayout: bool,
    requirePageTitle: bool,
    requireSubcategory: bool)

  /** The zero value, which is also what a nil options pointer stands for. */
  const DefaultOptions := FrontMatterOptions([], false, false, false, false, false, false, false, false, false)

  function FieldName(f: Field): string {
    match f
    case Description => "description"
    case Layout => "layout"
    case PageTitle => "page_title"
    case SidebarCurrent => "sidebar_current"
    case Subcategory => "subcategory"
  }

  /** The `No*` flag governing field `f`. */
  predicate Forbidden(opts: FrontMatterOptions, f: Field) {
    match f
    case Description => opts.noDescription
    case Layout => opts.noLayout
    case PageTitle => opts.noPageTitle
    case SidebarCurrent => opts.noSidebarCurrent
    case Subcategory => opts.noSubcategory
  }

  /** The `Require*` flag governing field `f` (there is none for sidebar_current). */
  predicate Required(opts: FrontMatterOptions, f: Field) {
    match f
    case Description => opts.requireDescription
    case Layout => opts.requireLayout
    case PageTitle => opts.requirePageTitle
    case SidebarCurrent => false
    case Subcategory => opts.requireSubcategory
  }

  /** The subcategory rule: a non-empty allow-list restricts a present subcategory. */
  predicate SubcategoryAllowed(opts: FrontMatterOptions, fields: set<Field>, subcategory: string) {
    |opts.allowedSubcategories| == 0 || Subcategory !in fields || subcategory in opts.allowedSubcategories
  }

  /** The whole policy, stated field by field. */
  predicate Conforms(opts: FrontMatterOptions, md: Metadata) {
    && md.Block?
    && (forall f :: Forbidden(opts, f) ==> f !in md.fields)
    && (forall f :: Required(opts, f) ==> f in md.fields)
    && SubcategoryAllowed(opts, md.fields, md.subcategory)
  }

  /** The first forbidden field that is present, in the order
      description, layout, page_title, sidebar_current, subcategory. */
  function ForbiddenViolation(opts: FrontMatterOptions, fields: set<Field>): (r: Option<Field>)
    ensures r.None? <==> forall f :: Forbidden(opts, f) ==> f !in fields
    ensures r.Some? ==> Forbidden(opts, r.value) && r.value in fields
  {
    if opts.noDescription && Description in fields then Some(Description)
    else if opts.noLayout && Layout in fields then Some(Layout)
    else if opts.noPageTitle && PageTitle in fields then Some(PageTitle)
    else if opts.noSidebarCurrent && SidebarCurrent in fields then Some(SidebarCurrent)
    else if opts.noSubcategory && Subcategory in fields then Some(Subcategory)
    else
      assert forall f :: Forbidden(opts, f) ==> f !in fields by {
        forall f | Forbidden(opts, f) ensures f !in fields {
          if f == Description {} else if f == Layout {} else if f == PageTitle {} else if f == SidebarCurrent {} else {}
        }
      }
      None
  }

  /** The first required field that is absent, in the order
      description, layout, page_title, subcategory. */
  function RequiredViolation(opts: FrontMatterOptions, fields: set<Field>): (r: Option<Field>)
    ensures r.None? <==> forall f :: Required(opts, f) ==> f in fields
    ensures r.Some? ==> Required(opts, r.value) && r.value !in fields
  {
    if opts.requireDescription && Description !in fields then Some(Description)
    else if opts.requireLayout && Layout !in fields then Some(Layout)
    else if opts.requirePageTitle && PageTitle !in fields then Some(PageTitle)
    else if opts.requireSubcategory && Subcategory !in fields then Some(Subcategory)
    else None
  }

  /** The subcategory a parsed block yields: its value when the field is
      present, none otherwise. */
  function SubcategoryOf(md: Metadata): (r: Option<string>)
    requires md.Block?
    ensures r.Some? <==> Subcategory in md.fields
  {
    if Subcategory in md.fields then Some(md.subcategory) else None
  }

  /** FrontMatterCheck.Run: the subcategory on success, otherwise the first
      violation (a parse failure, then a forbidden field, then a missing
      field, then a disallowed subcategory). */
  function Run(opts: FrontMatterOptions, md: Metadata): (r: Result<Option<string>>)
    ensures r.Ok? <==> Conforms(opts, md)
    ensures r.Ok? ==> r.value == SubcategoryOf(md)
  {
    match md
    case Malformed(reason) => Err("error parsing YAML frontmatter: " + reason)
    case Block(fields, subcategory) =>
      match ForbiddenViolation(opts, fields)
      case Some(f) => Err("YAML frontmatter should not contain " + FieldName(f))
      case None =>
        match RequiredViolation(opts, fields)
        case Some(f) => Err("YAML frontmatter missing required " + FieldName(f))
        case None =>
          if SubcategoryAllowed(opts, fields, subcategory) then Ok(SubcategoryOf(md))
          else Err("YAML frontmatter subcategory (" + subcategory + ") does not match allowed subcategories")
  }

  /** Options with exactly one `No*` flag set. */
  function OnlyForbid(f: Field): (opts: FrontMatterOptions)
    ensures forall g :: Forbidden(opts, g) <==> g == f
    ensures forall g :: !Required(opts, g)
    ensures opts.allowedSubcategories == []
  {
    DefaultOptions.(noDescription := f == Description, noLayout := f == Layout,
                    noPageTitle := f == PageTitle, noSidebarCurrent := f == SidebarCurrent,
                    noSubcategory := f == Subcategory)
  }

  /** Options with exactly one `Require*` flag set. */
  function OnlyRequire(f: Field): (opts: FrontMatterOptions)
    requires f != SidebarCurrent
    ensures forall g :: Required(opts, g) <==> g == f
    ensures forall g :: !Forbidden(opts, g)
    ensures opts.allowedSubcategories == []
  {
    DefaultOptions.(requireDescription := f == Description, requireLayout := f == Layout,
                    requirePageTitle := f == PageTitle, requireSubcategory := f == Subcategory)
  }

  /** Empty source (no fields at all) passes the default policy. */
  lemma EmptySourceAccepted()
    ensures Run(DefaultOptions, Block({}, "")) == Ok(None)
  {
  }

  /** Any well-formed block passes the default policy and yields its
      subcategory when it has one, whether or not the source had `---`
      delimiters or trailing Markdown. */
  lemma DefaultOptionsAcceptWellFormed(fields: set<Field>, subcategory: string)
    ensures Subcategory in fields ==> Run(DefaultOptions, Block(fields, subcategory)) == Ok(Some(subcategory))
    ensures Subcategory !in fields ==> Run(DefaultOptions, Block(fields, subcategory)) == Ok(None)
  {
  }

  /** Malformed metadata is always an error, whatever the options. */
  lemma MalformedRejected(opts: FrontMatterOptions, reason: string)
    ensures Run(opts, Malformed(reason)).Err?
  {
  }

  /** The allow-list accepts a present subcategory exactly when it lists it. */
  lemma AllowedSubcategoryDecides(allowed: seq<string>, fields: set<Field>, subcategory: string)
    requires |allowed| > 0 && Subcategory in fields
    ensures Run(DefaultOptions.(allowedSubcategories := allowed), Block(fields, subcategory)).Ok?
            <==> subcategory in allowed
    ensures subcategory in allowed ==>
            Run(DefaultOptions.(allowedSubcategories := allowed), Block(fields, subcategory)) == Ok(Some(subcategory))
  {
  }

  /** Each `No*` option rejects a block where that field is present, and only then. */
  lemma ForbiddenFieldRejected(f: Field, fields: set<Field>, subcategory: string)
    ensures Run(OnlyForbid(f), Block(fields, subcategory)).Err? <==> f in fields
  {
  }

  /** Each `Require*` option rejects a block where that field is absent, and only then. */
  lemma RequiredFieldRejected(f: Field, fields: set<Field>, subcategory: string)
    requires f != SidebarCurrent
    ensures Run(OnlyRequire(f), Block(fields, subcategory)).Err? <==> f !in fields
  {
  }
}
