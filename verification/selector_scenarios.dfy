/**
 * The concrete scenarios the store's unit tests exercise, stated over the model:
 * each lemma builds the test's state tree and states what the selector returns.
 */
module SelectorScenarios {
  import opened Wrappers
  import opened JsValues
  import opened CoreDataSelectors

  /** A state tree with every slice empty. */
  const Empty: State := State(map[], UsersState(map[], map[]), map[], Obj([]), map[])

  const Url: string := "http://example.com/"

  /** `{ slug: <slug> }` */
  function SlugRecord(slug: string): Value {
    Obj([Property("slug", Str(slug))])
  }

  /** A state whose `entities.root.postType.byKey` is `byKey`. */
  function WithPostTypes(byKey: seq<Property>): (s: State)
    ensures HasEntity(s, "root", "postType")
  {
    Empty.(entities := map["root" := map["postType" := EntityState(byKey)]])
  }

  /** Terms never received read as undefined; received terms read back exactly. */
  lemma TermsScenario()
    ensures GetTerms(Empty, "categories") == None
    ensures var terms := [Obj([Property("id", Num(1))])];
      GetTerms(Empty.(terms := map["categories" := terms]), "categories") == Some(terms)
  {
  }

  /**
   * With the tests' tracker, which reports "core"/"getCategories" as in flight
   * exactly while `active`, `isRequestingCategories` follows it and term requests
   * for other selectors are not reported.
   */
  lemma RequestingCategoriesScenario(active: bool)
    ensures var tracker: ResolutionTracker :=
        (storeKey, selectorName, args) => active && storeKey == "core" && selectorName == "getCategories";
      && IsRequestingCategories(tracker) == active
      && !IsRequestingTerms(Empty, tracker, "categories")
  {
  }

  /** An unknown key reads as undefined; a stored record reads back exactly. */
  lemma EntityRecordScenario()
    ensures GetEntityRecord(WithPostTypes([]), "root", "postType", "post") == None
    ensures GetEntityRecord(WithPostTypes([Property("post", SlugRecord("post"))]), "root", "postType", "post")
      == Some(SlugRecord("post"))
  {
  }

  /** An empty bucket gives `[]`; a populated one gives its records in enumeration order. */
  lemma EntityRecordsScenario()
    ensures GetEntityRecords(WithPostTypes([]), "root", "postType") == []
    ensures GetEntityRecords(
        WithPostTypes([Property("post", SlugRecord("post")), Property("page", SlugRecord("page"))]),
        "root", "postType")
      == [SlugRecord("post"), SlugRecord("page")]
  {
  }

  /** The link-only markup for the tests' URL is the literal the tests store. */
  lemma LinkOnlyHtmlForUrl()
    ensures LinkOnlyHtml(Url) == "<a href=\"http://example.com/\">http://example.com/</a>"
  {
    calc {
      LinkOnlyHtml(Url);
      "<a href=\"" + Url + "\">" + Url + "</a>";
      "<a href=\"http://example.com/" + "\">" + Url + "</a>";
      "<a href=\"http://example.com/\">" + Url + "</a>";
      "<a href=\"http://example.com/\">http://example.com/" + "</a>";
      "<a href=\"http://example.com/\">http://example.com/</a>";
    }
  }

  /** Nothing fetched reads as undefined, and an ordinary payload such as `{data: 42}` is returned unchanged. */
  lemma PreviewScenario()
    ensures GetPreview(Empty, Url) == Unfetched
    ensures var data := [Property("data", Num(42))];
      GetPreview(Empty.(embedPreviews := map[Url := data]), Url) == Embed(data)
  {
  }

  /** A payload whose html is only a link to the URL makes it unembeddable. */
  lemma LinkOnlyPreviewScenario()
    ensures var link := [Property("html", Str("<a href=\"http://example.com/\">http://example.com/</a>"))];
      GetPreview(Empty.(embedPreviews := map[Url := link]), Url) == NotEmbeddable
  {
    LinkOnlyHtmlForUrl();
  }
}
