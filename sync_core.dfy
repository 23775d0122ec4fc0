/**
 * The synchronisation between the drawing canvas and the JSON text editor.
 * The canvas is reached through the instructions the editor sends it, and it may
 * refuse one by throwing; the deferred clear of the loop-guard flag is an
 * explicit timer event.
 */
module SyncCore {
  import opened Wrappers
  import Json
  import Text

  /** A drawing element as the canvas reports and accepts it. */
  type Element = Json.Value

  /** One `updateScene` instruction: new elements, and a view state when one was given. */
  datatype SceneUpdate = SceneUpdate(elements: seq<Element>, appState: Option<Json.Value>)

  /** The instruction that empties the canvas. */
  const ClearScene := SceneUpdate([], None)

  class App {
    /** `JSON.parse`; `None` when it throws. */
    const parse: string -> Option<Json.Value>
    /** `JSON.stringify(elements, null, 2)`. */
    const stringify: seq<Element> -> string
    /** `convertToExcalidrawElements`; `None` when it throws. */
    const convert: Json.Value -> Option<seq<Element>>
    /** `excalidrawAPI.updateScene` returns normally for this instruction (`false`: it throws). */
    const sceneAccepts: SceneUpdate -> bool

    /** The canvas has handed over its API (`excalidrawAPI` is set). */
    var apiReady: bool
    /** The text buffer shown in the editor. */
    var jsonValue: string
    /** The loop guard `isUpdatingFromJSON.current`. */
    var updating: bool
    /** Deferred clears of the guard that are scheduled and have not fired yet. */
    var pendingClears: nat
    /** Every `updateScene` instruction the canvas accepted, oldest first. */
    var sceneUpdates: seq<SceneUpdate>

    /**
     * The guard is never set without a clear on its way. Every handler keeps this,
     * except the blank-text branch of `OnJsonChange` when the canvas throws.
     */
    ghost predicate Valid()
      reads this
    {
      updating ==> pendingClears > 0
    }

    constructor (parse: string -> Option<Json.Value>, stringify: seq<Element> -> string,
                 convert: Json.Value -> Option<seq<Element>>, sceneAccepts: SceneUpdate -> bool)
      ensures Valid()
      ensures this.parse == parse && this.stringify == stringify && this.convert == convert
      ensures this.sceneAccepts == sceneAccepts
      ensures !apiReady && jsonValue == "[]" && !updating && pendingClears == 0 && sceneUpdates == []
    {
      this.parse, this.stringify, this.convert, this.sceneAccepts := parse, stringify, convert, sceneAccepts;
      apiReady, jsonValue, updating, pendingClears, sceneUpdates := false, "[]", false, 0, [];
    }

    /** The canvas hands over its imperative API. */
    method AttachCanvas()
      modifies this`apiReady
      ensures apiReady
    {
      apiReady := true;
    }

    /**
     * The instruction `updateSceneFromJSON` sends for a parsed document, or `None`
     * when it sends nothing: an array is converted into the new elements; an object
     * whose `elements` is truthy has those converted and its `appState` passed along;
     * a conversion that throws, a `null` (reading `.elements` throws) and every other
     * value send nothing.
     */
    function Instruction(parsed: Json.Value): (u: Option<SceneUpdate>)
      ensures parsed.Array? ==>
        u == if convert(parsed).Some? then Some(SceneUpdate(convert(parsed).value, None)) else None
      ensures u.Some? && !parsed.Array? ==>
        parsed.Object? && "elements" in parsed.fields && Json.Truthy(parsed.fields["elements"]) &&
        convert(parsed.fields["elements"]) == Some(u.value.elements) &&
        u.value.appState == Json.OptionalProperty(parsed, "appState")
      ensures (parsed.Object? && "elements" in parsed.fields && Json.Truthy(parsed.fields["elements"]) &&
               convert(parsed.fields["elements"]).Some?) ==> u.Some?
      ensures parsed.Null? || parsed.Bool? || parsed.Number? || parsed.Str? ==> u == None
    {
      if parsed.Array? then
        match convert(parsed)
        case Some(elements) => Some(SceneUpdate(elements, None))
        case None => None
      else
        var elements := Json.Property(parsed, "elements");
        if elements.Defined? && Json.Truthy(elements.value) then
          match convert(elements.value)
          case Some(converted) => Some(SceneUpdate(converted, Json.OptionalProperty(parsed, "appState")))
          case None => None
        else
          None
    }

    /**
     * What the canvas keeps of an optional instruction: the instruction itself when
     * there is one and `updateScene` accepts it, and nothing otherwise.
     */
    function Delivered(u: Option<SceneUpdate>): (s: seq<SceneUpdate>)
      ensures s != [] <==> u.Some? && sceneAccepts(u.value)
      ensures s != [] ==> s == [u.value]
    {
      if u.Some? && sceneAccepts(u.value) then [u.value] else []
    }

    /**
     * `onChange` from the canvas: while the guard is set the report is an echo and
     * is ignored; otherwise the editor shows the serialised elements alone. The
     * wrapping record with its view-state projection is built and then discarded,
     * so the reported view state never reaches the text.
     */
    method OnChange(elements: seq<Element>, appState: Json.Value)
      modifies this`jsonValue
      ensures jsonValue == if updating then old(jsonValue) else stringify(elements)
    {
      if updating {
        return;
      }
      jsonValue := stringify(elements);
    }

    /**
     * `updateSceneFromJSON`: with the canvas attached it sets the guard, sends the
     * instruction for `parsed` if there is one (a throwing conversion or
     * `updateScene` is caught), and always schedules the clear of the guard.
     */
    method UpdateSceneFromJson(parsed: Json.Value)
      modifies this`updating, this`pendingClears, this`sceneUpdates
      ensures apiReady ==> Valid()
      ensures !apiReady ==>
        updating == old(updating) && pendingClears == old(pendingClears) && sceneUpdates == old(sceneUpdates)
      ensures apiReady ==> updating && pendingClears == old(pendingClears) + 1
      ensures apiReady ==> sceneUpdates == old(sceneUpdates) + Delivered(Instruction(parsed))
    {
      if !apiReady {
        return;
      }
      updating := true;
      if parsed.Array? {
        var converted := convert(parsed);
        if converted.Some? && sceneAccepts(SceneUpdate(converted.value, None)) {
          sceneUpdates := sceneUpdates + [SceneUpdate(converted.value, None)];
        }
      } else {
        var elements := Json.Property(parsed, "elements");
        if elements.Defined? && Json.Truthy(elements.value) {
          var converted := convert(elements.value);
          if converted.Some? {
            var u := SceneUpdate(converted.value, Json.OptionalProperty(parsed, "appState"));
            if sceneAccepts(u) {
              sceneUpdates := sceneUpdates + [u];
            }
          }
        }
      }
      pendingClears := pendingClears + 1;
    }

    /**
     * `onJsonChange`: the new text is always kept. With the canvas attached, blank
     * text clears the scene under the guard without being parsed; text that parses
     * goes to `UpdateSceneFromJson`; text that does not parse changes nothing else.
     * The clear of blank text is not protected: when `updateScene` throws, the
     * handler ends there, with the guard set and no clear scheduled for it.
     */
    method OnJsonChange(newValue: string)
      modifies this`jsonValue, this`updating, this`pendingClears, this`sceneUpdates
      ensures old(Valid()) && !(apiReady && Text.IsBlank(newValue) && !sceneAccepts(ClearScene)) ==> Valid()
      ensures jsonValue == newValue
      ensures !apiReady || (!Text.IsBlank(newValue) && parse(newValue).None?) ==>
        updating == old(updating) && pendingClears == old(pendingClears) && sceneUpdates == old(sceneUpdates)
      ensures apiReady && Text.IsBlank(newValue) && sceneAccepts(ClearScene) ==>
        updating && pendingClears == old(pendingClears) + 1 && sceneUpdates == old(sceneUpdates) + [ClearScene]
      ensures apiReady && Text.IsBlank(newValue) && !sceneAccepts(ClearScene) ==>
        updating && pendingClears == old(pendingClears) && sceneUpdates == old(sceneUpdates)
      ensures apiReady && !Text.IsBlank(newValue) && parse(newValue).Some? ==>
        updating && pendingClears == old(pendingClears) + 1 &&
        sceneUpdates == old(sceneUpdates) + Delivered(Instruction(parse(newValue).value))
    {
      jsonValue := newValue;
      if !apiReady {
        return;
      }
      var blank := Text.TrimsToEmpty(newValue);
      if blank {
        updating := true;
        if sceneAccepts(ClearScene) {
          sceneUpdates := sceneUpdates + [ClearScene];
          pendingClears := pendingClears + 1;
        }
      } else {
        var parsed := parse(newValue);
        if parsed.Some? {
          UpdateSceneFromJson(parsed.value);
        }
      }
    }

    /**
     * `onGitHubFileSelect`: the loaded text is kept whether or not it parses, and a
     * parsed document goes to `UpdateSceneFromJson`.
     */
    method LoadFile(content: string)
      modifies this`jsonValue, this`updating, this`pendingClears, this`sceneUpdates
      ensures old(Valid()) ==> Valid()
      ensures jsonValue == content
      ensures !apiReady || parse(content).None? ==>
        updating == old(updating) && pendingClears == old(pendingClears) && sceneUpdates == old(sceneUpdates)
      ensures apiReady && parse(content).Some? ==>
        updating && pendingClears == old(pendingClears) + 1 &&
        sceneUpdates == old(sceneUpdates) + Delivered(Instruction(parse(content).value))
    {
      jsonValue := content;
      var parsed := parse(content);
      if parsed.Some? {
        UpdateSceneFromJson(parsed.value);
      }
    }

    /** A scheduled clear fires: whichever fires first clears the guard. */
    method TimerFires()
      requires pendingClears > 0
      modifies this`updating, this`pendingClears
      ensures Valid()
      ensures !updating && pendingClears == old(pendingClears) - 1
    {
      updating := false;
      pendingClears := pendingClears - 1;
    }
  }

  /**
   * A document loaded into the editor suppresses the canvas's echo of it: the
   * `onChange` that follows the instruction leaves the text alone, even when the
   * echo reports something other than what was loaded.
   */
  method EchoIsSuppressed(app: App, text: string, echo: seq<Element>, appState: Json.Value)
    requires app.apiReady && app.parse(text).Some?
    modifies app
  {
    app.LoadFile(text);
    app.OnChange(echo, appState);
    assert app.jsonValue == text;
  }

  /**
   * Two edits close together schedule two clears; the first to fire clears the guard,
   * so a late echo of the second edit reaches the editor.
   */
  method OverlappingClears(app: App, first: string, second: string, echo: seq<Element>, appState: Json.Value)
    requires app.apiReady && !app.updating && app.pendingClears == 0
    requires app.parse(first).Some? && app.parse(second).Some?
    requires !Text.IsBlank(first) && !Text.IsBlank(second)
    modifies app
  {
    app.OnJsonChange(first);
    app.OnJsonChange(second);
    assert app.pendingClears == 2;
    app.TimerFires();
    assert app.pendingClears == 1 && !app.updating;
    app.OnChange(echo, appState);
    assert app.jsonValue == app.stringify(echo);
  }

  /**
   * When the canvas throws on the clear of a blank text, the guard stays set with
   * no clear scheduled: every later canvas change is dropped, and the text no longer
   * follows the drawing until a later edit or file load schedules a clear.
   */
  method StuckGuard(app: App, blank: string, echo: seq<Element>, appState: Json.Value)
    requires app.apiReady && !app.updating && app.pendingClears == 0
    requires Text.IsBlank(blank) && !app.sceneAccepts(ClearScene)
    modifies app
    ensures app.updating && app.pendingClears == 0 && !app.Valid()
    ensures app.jsonValue == blank
  {
    app.OnJsonChange(blank);
    app.OnChange(echo, appState);
  }
}
