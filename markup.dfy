/**
 * What the markup parser hands to the comps callbacks.
 *
 * Tokenising XML and checking it is well formed is done by GMarkup, which is
 * not part of this model: a catalog file is represented by the callback
 * events GMarkup delivers for it and by whether it could be read and parsed.
 */
module Markup {

  /** One callback invocation: element start (with the attribute VALUES in
      document order; the comps callbacks never look at attribute names),
      a span of text, or an element end. */
  datatype Event =
    | Start(name: string, attrValues: seq<string>)
    | Text(text: string)
    | End(name: string)

  /** One catalog file as the driver meets it: either g_file_get_contents
      fails (no events at all), or the file is loaded, its events are
      delivered, and `parsed` says whether GMarkup accepted it. For a file
      GMarkup rejects, `events` are those delivered before the error. */
  datatype CompsFile =
    | Unreadable
    | Loaded(events: seq<Event>, parsed: bool)

  /** True when the driver goes on to the next file after this one. */
  predicate Succeeds(f: CompsFile)
  {
    f.Loaded? && f.parsed
  }
}
