/** The configuration options the checker engine reads. */
module Options {
  import opened BinaryRule

  /** An id filter: the keyword ('all' for include, 'none' for exclude) or an
      explicit list of plugin ids. */
  datatype IdList = Keyword | Ids(ids: seq<string>)

  datatype Config = Config(
    includes: IdList,             // Keyword when absent (`include || 'all'`)
    excludes: IdList,             // Ids([]) when absent (`exclude || []`)
    safe: bool,
    errorLevel: int,              // 0 also stands for an absent errorLevel: both are falsy
    ignoreRulesets: seq<string>,
    operation: string,
    curBrowser: Mask)             // config._inner.curBrowser

  /** `list.indexOf(id) != -1` on an explicit id list. */
  predicate Listed(ids: seq<string>, id: string) {
    id in ids
  }
}
