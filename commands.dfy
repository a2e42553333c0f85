/**
 * The protocol commands the interaction layer sends, with the parameter
 * objects it builds for them. The JavaScript inside an expression is only a
 * string here: what it does is the browser's business.
 */
module Commands {
  import opened Json
  import opened Capability

  /** `document.querySelector("<selector>")`, the element reference every element script starts with. */
  function Query(selector: string): string
  {
    "document.querySelector(\"" + selector + "\")"
  }

  function Evaluate(awaits: bool, params: map<string, Value>): Call
  {
    Call(awaits, "Runtime.evaluate", Obj(params))
  }

  /** The existence check of the poll loop; its answer is read by `Responses.ExistsValue`. */
  function Probe(selector: string): Call
  {
    Evaluate(true, map["expression" := Str(Query(selector) + " !== null"), "returnByValue" := Bool(true)])
  }

  function Focus(selector: string): Call
  {
    Evaluate(false, map["expression" := Str(Query(selector) + ".focus()")])
  }

  function ClickScript(selector: string): Call
  {
    Evaluate(false, map["expression" := Str(Query(selector) + ".click()"), "awaitPromise" := Bool(true)])
  }

  function InnerTextScript(selector: string): Call
  {
    Evaluate(true, map["expression" := Str(Query(selector) + ".innerText"), "returnByValue" := Bool(true)])
  }

  function OuterHtml(): Call
  {
    Evaluate(true, map["expression" := Str("document.documentElement.outerHTML"), "returnByValue" := Bool(true)])
  }

  /** The navigation-timing script; it yields 0 while no navigation entry exists. */
  function StatusScript(): Call
  {
    Evaluate(true, map[
      "expression" := Str("(() => {\n\t\t\tconst navEntries = window.performance.getEntriesByType('navigation');\n"
                        + "\t\t\tif (navEntries.length === 0) return 0;\n"
                        + "\t\t\treturn navEntries[0].responseStatus;\n\t\t})()"),
      "returnByValue" := Bool(true)])
  }

  function KeyEvent(params: map<string, Value>): Call
  {
    Call(false, "Input.dispatchKeyEvent", Obj(params))
  }

  /** Ctrl+A: `modifiers` 2 is the protocol's Control bit. */
  function SelectAll(): Call
  {
    KeyEvent(map["type" := Str("keyDown"), "modifiers" := Num(2.0), "key" := Str("a")])
  }

  /** The Backspace that `Fill` sends to clear the selection. */
  function ClearKey(): Call
  {
    KeyEvent(map["type" := Str("keyDown"), "key" := Str("Backspace")])
  }

  /** The Backspace that undoes a mistyped letter, with virtual key code 8 on both platforms. */
  function EraseKey(): Call
  {
    KeyEvent(map["type" := Str("rawKeyDown"), "key" := Str("Backspace"),
                 "windowsVirtualKeyCode" := Num(8.0), "nativeVirtualKeyCode" := Num(8.0)])
  }

  function Insert(text: string): Call
  {
    Call(false, "Input.insertText", Obj(map["text" := Str(text)]))
  }

  function EnablePage(): Call { Call(false, "Page.enable", Null) }

  function EnableNetwork(): Call { Call(false, "Network.enable", Null) }

  function Navigate(url: string): Call
  {
    Call(false, "Page.navigate", Obj(map["url" := Str(url)]))
  }

  function Reload(): Call { Call(false, "Page.reload", Null) }
}
