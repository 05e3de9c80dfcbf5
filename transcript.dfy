/** Transcript records as the accounting engine sees them once a JSONL line has been parsed.
    Timestamps are integer milliseconds since the epoch; an absent or empty timestamp is None. */
module Transcript {
  import opened Wrappers

  /** `message.usage`: each token count is present or absent; the source reads an absent count as 0
      (`x || 0`), but the dedup key (a JSON serialisation) tells the two apart, so both are kept. */
  datatype Usage = Usage(
    inputTokens: Option<nat>,
    outputTokens: Option<nat>,
    cacheCreationInputTokens: Option<nat>,
    cacheReadInputTokens: Option<nat>)

  /** `{}`: the usage the cost dedup key substitutes for a record without usage. */
  const EmptyUsage := Usage(None, None, None, None)

  /** A truthy `message.model`: a non-empty string, an object (with or without a string `id`),
      or any other truthy value. */
  datatype ModelRef = ModelName(name: string) | ModelObject(id: Option<string>) | ModelOther

  datatype Record = Record(
    timestamp: Option<int>,
    entryType: Option<string>,
    messageRole: Option<string>,
    messageType: Option<string>,
    usage: Option<Usage>,
    costUSD: Option<real>,
    isSidechain: bool,
    model: Option<string>,
    messageModel: Option<ModelRef>,
    modelId: Option<string>)

  /** One line of the file: a parsed record, or None for a line that failed to parse. */
  type Line = Option<Record>

  /** `count || 0`. */
  function Count(c: Option<nat>): nat {
    c.GetOr(0)
  }

  /** A string field that JavaScript treats as true: present and non-empty. */
  predicate Truthy(s: Option<string>) {
    s.Some? && s.value != ""
  }

  /** `type || message.role || message.type`. */
  function MessageKind(e: Record): Option<string> {
    if Truthy(e.entryType) then e.entryType
    else if Truthy(e.messageRole) then e.messageRole
    else if Truthy(e.messageType) then e.messageType
    else None
  }

  /** The sum of the four counts of a usage, absent counts as 0. */
  function UsageTokens(u: Usage): nat {
    Count(u.inputTokens) + Count(u.outputTokens) + Count(u.cacheCreationInputTokens) + Count(u.cacheReadInputTokens)
  }
}
