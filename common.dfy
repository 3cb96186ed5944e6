/** Small value types shared by every module of the model. */
module Common {

  /** An optional value; `None` stands for JavaScript's `undefined` (and, for numbers, `NaN`). */
  datatype Option<T> = None | Some(value: T)

  /** The outcome of a step that may throw: `Err` carries the thrown error's message. */
  datatype Result<T> = Ok(value: T) | Err(message: string)

  /** Who wrote a chat message. */
  datatype Role = User | Assistant

  /** A `{ role, content }` pair as exchanged with the completion capability and the store. */
  datatype ChatMessage = ChatMessage(role: Role, content: string)

  /** JavaScript truthiness of an optional string: `undefined` and `""` are falsy. */
  predicate Present(s: Option<string>) {
    s.Some? && s.value != ""
  }

  /** `s || default` for an optional string. */
  function OrElse(s: Option<string>, default: string): string {
    if Present(s) then s.value else default
  }

  /** `s || default` for a string. */
  function Or(s: string, default: string): string {
    if s != "" then s else default
  }

  /** JavaScript truthiness of an optional number: `undefined`, `NaN` and `0` are falsy. */
  predicate Truthy(n: Option<int>) {
    n.Some? && n.value != 0
  }

  function Min(a: int, b: int): int {
    if a <= b then a else b
  }
}
