/** The wiki the writers produce: a navigation tree of pages and the content of each page. The
    pydantic classes that validate them are not part of this model, so validation is a parser
    given to the agents: the value, or None when construction raises. */
module Wiki {
  import opened Wrappers
  import opened JsonValues

  /** A node of the navigation tree (`caption` is its label, `kind` its type): pages and sections,
      each possibly with children. */
  datatype NavNode = NavNode(id: string, caption: string, kind: string, children: seq<NavNode>)

  /** The navigation plan: its top-level nodes. */
  datatype Navigation = Navigation(tree: seq<NavNode>)

  /** A written page: its id and the other validated fields. */
  datatype WikiPage = WikiPage(id: string, fields: map<string, Json>)

  /** `WikiPageDetail(**kwargs)`. */
  type PageParser = map<string, Json> -> Option<WikiPage>

  /** `WikiNavigation(**kwargs)`. */
  type NavParser = map<string, Json> -> Option<Navigation>
}
