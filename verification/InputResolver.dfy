/** Building the input of a node from its configuration and the outputs of its dependencies. */
module InputResolver {
  import opened Wrappers
  import opened JsonValues
  import opened Definitions
  import T = TemplateSyntax

  type Outputs = map<string, Json>

  // ---------- Looking references up ----------

  function DigitsValue(s: string): nat
    requires forall i :: 0 <= i < |s| ==> T.IsDigit(s[i])
  {
    if s == [] then 0
    else
      assert T.IsDigit(s[|s| - 1]);
      10 * DigitsValue(s[..|s| - 1]) + (s[|s| - 1] as int - '0' as int)
  }

  /** One step down: an object by key, a list by position, anything else has no parts. */
  function Child(v: Json, key: string): Option<Json> {
    match v
    case Object(fields) => if key in fields then Some(fields[key]) else None
    case List(items) =>
      if T.Digits(key) && DigitsValue(key) < |items| then Some(items[DigitsValue(key)]) else None
    case _ => None
  }

  function Descend(v: Json, path: seq<string>): Option<Json>
    decreases |path|
  {
    if path == [] then Some(v)
    else match Child(v, path[0]) case None => None case Some(w) => Descend(w, path[1..])
  }

  function Lookup(r: T.Reference, outputs: Outputs): Option<Json> {
    if r.node in outputs then Descend(outputs[r.node], r.path) else None
  }

  // ---------- Substitution ----------

  function NatText(n: nat): string {
    if n < 10 then [('0' as int + n) as char] else NatText(n / 10) + [('0' as int + n % 10) as char]
  }

  function IntText(n: int): string {
    if n < 0 then "-" + NatText(-n) else NatText(n)
  }

  /** How a value appears inside text; structured values cannot. */
  function Render(v: Json): Option<string> {
    match v
    case Text(s) => Some(s)
    case Null => Some("null")
    case Bool(b) => Some(if b then "true" else "false")
    case Number(n) => Some(IntText(n))
    case List(_) => None
    case Object(_) => None
  }

  function RenderSegment(s: T.Segment, outputs: Outputs): Option<string> {
    match s
    case Literal(text) => Some(text)
    case Output(r) => match Lookup(r, outputs) case None => None case Some(v) => Render(v)
  }

  function Interpolate(segments: seq<T.Segment>, outputs: Outputs): Option<string> {
    if segments == [] then Some("")
    else
      match RenderSegment(segments[0], outputs)
      case None => None
      case Some(first) =>
        match Interpolate(segments[1..], outputs)
        case None => None
        case Some(rest) => Some(first + rest)
  }

  function ResolveText(s: string, outputs: Outputs): Option<Json> {
    match T.Parse(s)
    case None => None
    case Some(Plain(text)) => Some(Text(text))
    case Some(Whole(r)) => Lookup(r, outputs)
    case Some(Mixed(segments)) =>
      match Interpolate(segments, outputs) case None => None case Some(text) => Some(Text(text))
  }

  function ResolveValue(v: Json, outputs: Outputs): Option<Json> {
    match v
    case Text(s) => ResolveText(s, outputs)
    case List(items) =>
      if forall i :: 0 <= i < |items| ==> ResolveValue(items[i], outputs).Some?
      then Some(List(seq(|items|, i requires 0 <= i < |items| => ResolveValue(items[i], outputs).value)))
      else None
    case Object(fields) =>
      if forall k :: k in fields ==> ResolveValue(fields[k], outputs).Some?
      then Some(Object(map k | k in fields :: ResolveValue(fields[k], outputs).value))
      else None
    case _ => Some(v)
  }

  /** The worker input of a node, or nothing when a template cannot be resolved. */
  function Resolve(node: Node, input: map<string, Json>, outputs: Outputs): Option<map<string, Json>> {
    if node.handler == "input" then Some(input)
    else if node.handler == "output" then Some(outputs)
    else
      match ResolveValue(Object(node.config), outputs)
      case Some(Object(fields)) => Some(fields)
      case _ => None
  }
}
