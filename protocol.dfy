/** The tool protocol's shapes: arguments, the response envelope, tool
    definitions, and what one tool invocation did. */
module Protocol {
  import opened Wrappers
  import opened ApiClient

  /** The arguments of a call; a key that is not present reads as `undefined`. */
  type Args = map<string, string>

  function Arg(args: Args, name: string): Option<string> {
    if name in args then Some(args[name]) else None
  }

  datatype Content = Content(kind: string, text: string)

  /** `{content, isError}`; `isError == false` stands for a missing `isError` field. */
  datatype Envelope = Envelope(content: seq<Content>, isError: bool)

  /** The envelope holds exactly one item, of type `text`. */
  predicate IsTextEnvelope(e: Envelope) {
    |e.content| == 1 && e.content[0].kind == "text"
  }

  function TextOf(e: Envelope): string
    requires IsTextEnvelope(e)
  {
    e.content[0].text
  }

  function TextResult(text: string): (e: Envelope)
    ensures IsTextEnvelope(e) && TextOf(e) == text && !e.isError
  {
    Envelope([Content("text", text)], false)
  }

  function ErrorResult(text: string): (e: Envelope)
    ensures IsTextEnvelope(e) && TextOf(e) == text && e.isError
  {
    Envelope([Content("text", text)], true)
  }

  /** The envelope a handler returns, and the client operations it invoked, in order. */
  datatype ToolRun = ToolRun(envelope: Envelope, calls: seq<ApiCall>)

  datatype Property = Property(name: string, jsonType: string, description: string, allowed: seq<string>)
  datatype Schema = ObjectSchema(properties: seq<Property>, required: seq<string>)
  datatype ToolDefinition = ToolDefinition(name: string, description: string, inputSchema: Schema)

  /** The message of the `TypeError` a JavaScript engine throws when a method
      is called on `undefined`. */
  function ReadingUndefined(property: string): string {
    "Cannot read properties of undefined (reading '" + property + "')"
  }
}
