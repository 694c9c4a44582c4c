/** Conversation turns in the OpenAI chat shape that every entry point of
    the adapter accepts, plus the Claude shape the translation produces.
 */
module Messages {

  /** The `role` of a turn: the roles of the OpenAI chat message schema. */
  datatype Role = System | Developer | User | Assistant | Tool | Function

  /** A value stored under a key of a turn or a content part: a string, a
      nested object of strings such as `{"url": …}` or `{"type": "base64", …}`,
      or a value of any other shape, which the adapter only copies and is kept
      as its JSON text. */
  datatype Field = Str(s: string) | Dict(entries: map<string, string>) | Opaque(json: string)

  /** One content part: the string under its `"type"` key, and every other
      key. `"type"` itself is never a key of `fields`, and the `"image_url"`
      object the adapter reads is never kept as `Opaque` (see `WellFormedPart`). */
  datatype Part = Part(kind: string, fields: map<string, Field>)

  /** A part as a dictionary holds it: its `"type"` key is stored once, as
      `kind`, and its `"image_url"` value is spelled out rather than opaque. */
  predicate WellFormedPart(p: Part)
  {
    && "type" !in p.fields
    && ("image_url" in p.fields ==> !p.fields["image_url"].Opaque?)
  }

  /** A turn's `content`: plain text, a list of typed parts, or `None` (an
      assistant turn that only calls tools, or a function turn). */
  datatype Content = Text(text: string) | Parts(parts: seq<Part>) | NoContent

  /** A turn: its `role`, its `content`, and every other key (`name`,
      `tool_call_id`, …) in `extra`; `"role"` and `"content"` are never keys
      of `extra` (see `WellFormedMessage`). */
  datatype Message = Message(role: Role, content: Content, extra: map<string, Field>)

  /** A turn as a dictionary holds it: `role` and `content` are stored once,
      and every list part is well formed. */
  predicate WellFormedMessage(m: Message)
  {
    && "role" !in m.extra
    && "content" !in m.extra
    && (m.content.Parts? ==> forall j :: 0 <= j < |m.content.parts| ==> WellFormedPart(m.content.parts[j]))
  }

  /** A turn with only a role and content, the shape the refinement loop appends. */
  function Turn(role: Role, content: Content): Message
  {
    Message(role, content, map[])
  }

  const ImageUrlKind: string := "image_url"
  const ImageKind: string := "image"

  /** An OpenAI image part, `{"type": "image_url", "image_url": {"url": url}}`. */
  function ImageUrlPart(url: string): Part
  {
    Part(ImageUrlKind, map["image_url" := Dict(map["url" := url])])
  }

  /** A text part, `{"type": "text", "text": text}`. */
  function TextPart(text: string): Part
  {
    Part("text", map["text" := Str(text)])
  }

  /** The Claude image source block `{"type": "base64", "media_type": …, "data": …}`. */
  function Base64Source(mediaType: string, data: string): Field
  {
    Dict(map["type" := "base64", "media_type" := mediaType, "data" := data])
  }
}
