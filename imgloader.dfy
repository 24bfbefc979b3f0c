/**
 * The ConfigDrawer of tkimgloader: a registry of widgets keyed by
 * "<type value>_<id>", a nested configuration record beside it, and a
 * snapshot of the last saved or loaded configuration that decides whether
 * there are unsaved changes.
 */
module ImgLoader {
  import opened Wrappers
  import opened Widgets

  /** The registry key of a widget: its type's value, an underscore, its id. */
  function FullWidgetId(widgetId: string, widgetType: WidgetType): (key: string)
    ensures |key| == |widgetType.Value()| + 1 + |widgetId|
    ensures key[..|widgetType.Value()|] == widgetType.Value()
    ensures key[|widgetType.Value()|] == '_'
    ensures key[|widgetType.Value()| + 1..] == widgetId
  {
    widgetType.Value() + "_" + widgetId
  }

  /** Distinct (id, type) pairs never share a registry key. */
  lemma FullWidgetIdInjective(id1: string, t1: WidgetType, id2: string, t2: WidgetType)
    ensures FullWidgetId(id1, t1) == FullWidgetId(id2, t2) <==> id1 == id2 && t1 == t2
  {
  }

  /** One id may be registered once as a button and once as a text. */
  lemma SameIdOncePerType(widgetId: string)
    ensures FullWidgetId(widgetId, Button) != FullWidgetId(widgetId, Text)
  {
  }

  /** How add_image_button turns its orig_on_release flag into a button type. */
  function ButtonTypeFor(origOnRelease: bool): (b: ButtonType)
    ensures b == Release <==> origOnRelease
    ensures b == Switch <==> !origOnRelease
  {
    if origOnRelease then Release else Switch
  }

  /** An entry of the configuration's "text" table. */
  datatype TextEntry = TextEntry(text: string, x: int, y: int)

  /** An entry of the configuration's "image_buttons" table; images keyed "1", "2", ... as in the file. */
  datatype ButtonEntry = ButtonEntry(x: int, y: int, origImageOnRelease: bool, currentImage: int, images: map<string, string>)

  /** The drawer's own configuration record: background, texts and image buttons by id. */
  datatype Config = Config(background: Option<string>, text: map<string, TextEntry>, imageButtons: map<string, ButtonEntry>)

  /** The configuration a new drawer starts with. */
  const InitialConfig := Config(None, map[], map[])

  /**
   * A configuration as read from a file. Each outer Option says whether the
   * key is present; the background itself may be null. Entries keep the
   * order of the file's objects.
   */
  datatype ConfigFile = ConfigFile(
    background: Option<Option<string>>,
    text: Option<seq<(string, TextEntry)>>,
    imageButtons: Option<seq<(string, ButtonEntry)>>)

  /** The ids of a file table are distinct, since they were the keys of one object. */
  predicate DistinctIds<E>(items: seq<(string, E)>) {
    forall i, j :: 0 <= i < j < |items| ==> items[i].0 != items[j].0
  }

  /** The registry keys that loading the entries of one table adds. */
  function KeysOf<E>(items: seq<(string, E)>, widgetType: WidgetType): (keys: set<string>) {
    if items == [] then {}
    else KeysOf(items[..|items| - 1], widgetType) + {FullWidgetId(items[|items| - 1].0, widgetType)}
  }

  /** A key is added by a table exactly when it is the key of one of its entries. */
  lemma {:induction false} KeysOfMembership<E>(items: seq<(string, E)>, widgetType: WidgetType, key: string)
    ensures key in KeysOf(items, widgetType) <==>
            exists i :: 0 <= i < |items| && key == FullWidgetId(items[i].0, widgetType)
  {
    if items != [] {
      var front := items[..|items| - 1];
      KeysOfMembership(front, widgetType, key);
      if key in KeysOf(front, widgetType) {
        var i :| 0 <= i < |front| && key == FullWidgetId(front[i].0, widgetType);
        assert items[i] == front[i];
      }
      if exists i :: 0 <= i < |items| && key == FullWidgetId(items[i].0, widgetType) {
        var i :| 0 <= i < |items| && key == FullWidgetId(items[i].0, widgetType);
        if i < |front| {
          assert items[i] == front[i];
        }
      }
    }
  }

  /** Text keys and button keys never meet. */
  lemma KeysOfDisjoint<E, F>(texts: seq<(string, E)>, buttons: seq<(string, F)>)
    ensures KeysOf(texts, Text) !! KeysOf(buttons, Button)
  {
    forall key | key in KeysOf(texts, Text) && key in KeysOf(buttons, Button)
      ensures false
    {
      KeysOfMembership(texts, Text, key);
      KeysOfMembership(buttons, Button, key);
      var i :| 0 <= i < |texts| && key == FullWidgetId(texts[i].0, Text);
      var j :| 0 <= j < |buttons| && key == FullWidgetId(buttons[j].0, Button);
      FullWidgetIdInjective(texts[i].0, Text, buttons[j].0, Button);
    }
  }

  /** In a table of distinct ids, the i-th entry's key is not among the keys before it. */
  lemma NotYetLoaded<E>(items: seq<(string, E)>, i: nat, widgetType: WidgetType)
    requires DistinctIds(items) && i < |items|
    ensures FullWidgetId(items[i].0, widgetType) !in KeysOf(items[..i], widgetType)
  {
    KeysOfMembership(items[..i], widgetType, FullWidgetId(items[i].0, widgetType));
  }

  /** The keys a prefix of a table adds are among the keys the whole table adds. */
  lemma KeysOfPrefix<E>(items: seq<(string, E)>, i: nat, widgetType: WidgetType)
    requires i <= |items|
    ensures KeysOf(items[..i], widgetType) <= KeysOf(items, widgetType)
  {
    forall key | key in KeysOf(items[..i], widgetType)
      ensures key in KeysOf(items, widgetType)
    {
      KeysOfMembership(items[..i], widgetType, key);
      KeysOfMembership(items, widgetType, key);
      var j :| 0 <= j < i && key == FullWidgetId(items[..i][j].0, widgetType);
      assert items[..i][j] == items[j];
    }
  }

  /** The text table of a file; an absent table loads nothing. */
  function TextsOf(file: ConfigFile): (items: seq<(string, TextEntry)>) {
    if file.text.Some? then file.text.value else []
  }

  /** The image-button table of a file; an absent table loads nothing. */
  function ButtonsOf(file: ConfigFile): (items: seq<(string, ButtonEntry)>) {
    if file.imageButtons.Some? then file.imageButtons.value else []
  }

  /** Every registry key a whole file adds. */
  function FileKeys(file: ConfigFile): (keys: set<string>) {
    KeysOf(TextsOf(file), Text) + KeysOf(ButtonsOf(file), Button)
  }

  /** The configuration after one image button has been moved by (dx, dy). */
  function ButtonMovedBy(c: Config, buttonId: string, dx: int, dy: int): (r: Config)
    requires buttonId in c.imageButtons
    ensures r.background == c.background && r.text == c.text
    ensures r.imageButtons.Keys == c.imageButtons.Keys
    ensures forall k :: k in c.imageButtons && k != buttonId ==> r.imageButtons[k] == c.imageButtons[k]
    ensures r.imageButtons[buttonId].x == c.imageButtons[buttonId].x + dx
    ensures r.imageButtons[buttonId].y == c.imageButtons[buttonId].y + dy
    ensures r.imageButtons[buttonId].(x := 0, y := 0) == c.imageButtons[buttonId].(x := 0, y := 0)
  {
    var e := c.imageButtons[buttonId];
    c.(imageButtons := c.imageButtons[buttonId := e.(x := e.x + dx, y := e.y + dy)])
  }

  /** Moving a button back by the opposite deltas restores the configuration. */
  lemma ButtonMoveRoundTrip(c: Config, buttonId: string, dx: int, dy: int)
    requires buttonId in c.imageButtons
    ensures ButtonMovedBy(ButtonMovedBy(c, buttonId, dx, dy), buttonId, -dx, -dy) == c
  {
  }

  /** Two moves of one button compose into one move by the summed deltas. */
  lemma ButtonMovesCompose(c: Config, buttonId: string, dx1: int, dy1: int, dx2: int, dy2: int)
    requires buttonId in c.imageButtons
    ensures ButtonMovedBy(ButtonMovedBy(c, buttonId, dx1, dy1), buttonId, dx2, dy2) ==
            ButtonMovedBy(c, buttonId, dx1 + dx2, dy1 + dy2)
  {
  }

  /** A move changes the configuration (so, from a saved state, makes it dirty) exactly when a delta is non-zero. */
  lemma ButtonMoveChangesConfig(c: Config, buttonId: string, dx: int, dy: int)
    requires buttonId in c.imageButtons
    ensures ButtonMovedBy(c, buttonId, dx, dy) != c <==> dx != 0 || dy != 0
  {
  }

  /** The ValueError and KeyError the registry raises. */
  datatype DrawerError =
    | DuplicateWidget(key: string)
    | MissingWidget(key: string)

  /** A canvas widget with the given id, type and position. */
  predicate Shows(w: Widget, widgetId: string, widgetType: WidgetType, x: int, y: int)
    reads w
  {
    w.id == widgetId && w.category == Canvas && w.widgetType == widgetType && w.Pos() == Position(x, y)
  }

  /** Each of the first n text entries is registered to a text widget with its id and position. */
  predicate TextsShown(ws: map<string, Widget>, items: seq<(string, TextEntry)>, n: nat)
    requires n <= |items|
    reads ws.Values
  {
    forall j :: 0 <= j < n ==>
      var key := FullWidgetId(items[j].0, Text);
      key in ws && Shows(ws[key], items[j].0, Text, items[j].1.x, items[j].1.y)
  }

  /** Each of the first n button entries is registered to a button with its id, position and button type. */
  predicate ButtonsShown(ws: map<string, Widget>, items: seq<(string, ButtonEntry)>, n: nat)
    requires n <= |items|
    reads ws.Values
  {
    forall j :: 0 <= j < n ==>
      var key := FullWidgetId(items[j].0, Button);
      && key in ws
      && Shows(ws[key], items[j].0, Button, items[j].1.x, items[j].1.y)
      && ws[key].buttonType == Some(ButtonTypeFor(items[j].1.origImageOnRelease))
  }

  /**
   * Loading a table failed at entry i: its key was already registered
   * before loading began, and none of the entries before it were.
   */
  predicate FailedAt<E>(items: seq<(string, E)>, widgetType: WidgetType, i: nat, err: DrawerError, taken: set<string>)
    requires i < |items|
  {
    && err == DuplicateWidget(FullWidgetId(items[i].0, widgetType))
    && FullWidgetId(items[i].0, widgetType) in taken
    && KeysOf(items[..i], widgetType) !! taken
  }

  /**
   * Loading a text table into a registry holding the keys taken failed at
   * some entry: exactly the entries before it were registered and shown.
   */
  predicate TextsFailedAt(items: seq<(string, TextEntry)>, err: DrawerError, taken: set<string>, ws: map<string, Widget>)
    reads ws.Values
  {
    exists i :: (&& 0 <= i < |items|
                 && FailedAt(items, Text, i, err, taken)
                 && ws.Keys == taken + KeysOf(items[..i], Text)
                 && TextsShown(ws, items, i))
  }

  /** The same for an image-button table. */
  predicate ButtonsFailedAt(items: seq<(string, ButtonEntry)>, err: DrawerError, taken: set<string>, ws: map<string, Widget>)
    reads ws.Values
  {
    exists i :: (&& 0 <= i < |items|
                 && FailedAt(items, Button, i, err, taken)
                 && ws.Keys == taken + KeysOf(items[..i], Button)
                 && ButtonsShown(ws, items, i))
  }

  /**
   * Loading a file failed in its image-button table: every text and the
   * buttons before the failing one were registered.
   */
  predicate ButtonsFailed(file: ConfigFile, err: DrawerError, taken: set<string>, ws: map<string, Widget>)
    reads ws.Values
  {
    && KeysOf(TextsOf(file), Text) !! taken
    && TextsShown(ws, TextsOf(file), |TextsOf(file)|)
    && ButtonsFailedAt(ButtonsOf(file), err, taken + KeysOf(TextsOf(file), Text), ws)
  }

  /** Registering more widgets keeps the texts already shown. */
  lemma TextsShownKept(before: map<string, Widget>, after: map<string, Widget>, texts: seq<(string, TextEntry)>)
    requires TextsShown(before, texts, |texts|)
    requires forall k :: k in before ==> k in after && after[k] == before[k]
    ensures TextsShown(after, texts, |texts|)
  {
  }

  /**
   * Drawer equality is an equivalence, and it holds between drawers that
   * differ in their widgets, background path or saved snapshot alone.
   */
  lemma EqualsIsEquivalence(a: ConfigDrawer, b: ConfigDrawer, c: ConfigDrawer)
    ensures a.Equals(a)
    ensures a.Equals(b) ==> b.Equals(a)
    ensures a.Equals(b) && b.Equals(c) ==> a.Equals(c)
    ensures (&& a.config == b.config
             && a.configPath == b.configPath
             && a.imageKeys == b.imageKeys
             && a.buttonDetailKeys == b.buttonDetailKeys) ==> a.Equals(b)
  {
  }

  class ConfigDrawer {
    /** Some("") until a background is loaded; None when a file's background was null. */
    var backgroundPath: Option<string>
    var widgets: map<string, Widget>
    var config: Config
    var savedConfig: Config
    /** The keys of the decoded-image cache; only drawing fills it. */
    var imageKeys: set<string>
    /** The keys of the image-button drawing details; only drawing fills them. */
    var buttonDetailKeys: set<string>
    var configPath: Option<string>

    /** A new drawer: no widgets, no background, no path, nothing unsaved. */
    constructor ()
      ensures backgroundPath == Some("") && widgets == map[] && configPath == None
      ensures config == InitialConfig && savedConfig == InitialConfig
      ensures imageKeys == {} && buttonDetailKeys == {}
      ensures !UnsavedChanges()
    {
      backgroundPath := Some("");
      widgets := map[];
      config := InitialConfig;
      savedConfig := InitialConfig;
      imageKeys := {};
      buttonDetailKeys := {};
      configPath := None;
    }

    /** The configuration differs from the last saved or loaded snapshot. */
    predicate UnsavedChanges()
      reads this
    {
      config != savedConfig
    }

    /**
     * Equality of two drawers: the configuration, the configuration path and
     * the key sets of the two drawing caches; the widgets are not compared.
     */
    predicate Equals(other: ConfigDrawer)
      reads this, other
    {
      && config == other.config
      && configPath == other.configPath
      && imageKeys == other.imageKeys
      && buttonDetailKeys == other.buttonDetailKeys
    }

    predicate ContainsWidget(widgetId: string, widgetType: WidgetType)
      reads this
    {
      FullWidgetId(widgetId, widgetType) in widgets
    }

    predicate ImageButtonIdAvailable(buttonId: string)
      reads this
      ensures ImageButtonIdAvailable(buttonId) <==> !ContainsWidget(buttonId, Button)
    {
      FullWidgetId(buttonId, Button) !in widgets
    }

    /** Registers a widget under its key, refusing a key already taken. */
    method AddWidget(w: Widget) returns (err: Option<DrawerError>)
      modifies this`widgets
      ensures var key := FullWidgetId(w.id, w.widgetType);
              && (err.Some? <==> key in old(widgets))
              && (err.Some? ==> err.value == DuplicateWidget(key) && widgets == old(widgets))
              && (err.None? ==> widgets == old(widgets)[key := w])
      ensures err.None? ==> ContainsWidget(w.id, w.widgetType)
    {
      var key := FullWidgetId(w.id, w.widgetType);
      if key in widgets {
        return Some(DuplicateWidget(key));
      }
      widgets := widgets[key := w];
      return None;
    }

    /** Unregisters the widget stored under the given widget's key, and nothing else. */
    method RemoveWidget(w: Widget) returns (err: Option<DrawerError>)
      modifies this`widgets
      ensures var key := FullWidgetId(w.id, w.widgetType);
              && (err.Some? <==> key !in old(widgets))
              && (err.Some? ==> err.value == MissingWidget(key) && widgets == old(widgets))
              && (err.None? ==> widgets == old(widgets) - {key})
      ensures err.None? ==> !ContainsWidget(w.id, w.widgetType)
      ensures err.None? && w.widgetType == Button ==> ImageButtonIdAvailable(w.id)
    {
      var key := FullWidgetId(w.id, w.widgetType);
      if key !in widgets {
        return Some(MissingWidget(key));
      }
      widgets := widgets - {key};
      return None;
    }

    /** Records the background path; the configuration is not touched. */
    method LoadBackground(path: Option<string>)
      modifies this`backgroundPath
      ensures backgroundPath == path
    {
      backgroundPath := path;
    }

    /** Creates a text widget and registers it under "Text_" + its id. */
    method AddText(textId: string, posX: int, posY: int) returns (r: Result<Widget, DrawerError>)
      modifies this`widgets
      ensures var key := FullWidgetId(textId, Text);
              && (r.Failure? <==> key in old(widgets))
              && (r.Failure? ==> r.error == DuplicateWidget(key) && widgets == old(widgets))
              && (r.Success? ==> && fresh(r.value)
                                 && widgets == old(widgets)[key := r.value]
                                 && Shows(r.value, textId, Text, posX, posY))
    {
      var w := new Widget.CanvasText(textId, posX, posY);
      var err := AddWidget(w);
      if err.Some? {
        return Failure(err.value);
      }
      return Success(w);
    }

    /** Creates an image button of the type orig_on_release selects and registers it under "Button_" + its id. */
    method AddImageButton(buttonId: string, posX: int, posY: int, origOnRelease: bool)
      returns (r: Result<Widget, DrawerError>)
      modifies this`widgets
      ensures var key := FullWidgetId(buttonId, Button);
              && (r.Failure? <==> key in old(widgets))
              && (r.Failure? ==> r.error == DuplicateWidget(key) && widgets == old(widgets))
              && (r.Success? ==> && fresh(r.value)
                                 && widgets == old(widgets)[key := r.value]
                                 && Shows(r.value, buttonId, Button, posX, posY)
                                 && r.value.buttonType == Some(ButtonTypeFor(origOnRelease)))
    {
      var w := new Widget.CanvasImageButton(buttonId, ButtonTypeFor(origOnRelease), posX, posY);
      var err := AddWidget(w);
      if err.Some? {
        return Failure(err.value);
      }
      return Success(w);
    }

    /** Writes an absolute position into one button's configuration entry. */
    method UpdateImagePosition(buttonId: string, posX: int, posY: int)
      requires buttonId in config.imageButtons
      modifies this`config
      ensures config == ButtonMovedBy(old(config), buttonId,
                                      posX - old(config).imageButtons[buttonId].x,
                                      posY - old(config).imageButtons[buttonId].y)
    {
      var e := config.imageButtons[buttonId];
      config := config.(imageButtons := config.imageButtons[buttonId := e.(x := posX, y := posY)]);
    }

    /** Moves one button's configured position by (moveX, moveY); no other entry changes. */
    method MoveImageButton(buttonId: string, moveX: int, moveY: int)
      requires buttonId in config.imageButtons
      modifies this`config
      ensures config == ButtonMovedBy(old(config), buttonId, moveX, moveY)
    {
      UpdateImagePosition(buttonId, config.imageButtons[buttonId].x + moveX,
                          config.imageButtons[buttonId].y + moveY);
    }

    /** Saving records the path and makes the current configuration the snapshot. */
    method SaveConfigToFile(path: string)
      modifies this`configPath, this`savedConfig
      ensures configPath == Some(path) && savedConfig == config
      ensures !UnsavedChanges()
    {
      configPath := Some(path);
      savedConfig := config;
    }

    /** Registers the text widgets of one file table, in order, stopping at the first taken key. */
    method LoadTexts(items: seq<(string, TextEntry)>) returns (err: Option<DrawerError>)
      requires DistinctIds(items)
      modifies this`widgets
      ensures err.None? <==> KeysOf(items, Text) !! old(widgets).Keys
      ensures err.Some? ==> err.value.DuplicateWidget? && err.value.key in old(widgets) &&
                            err.value.key in KeysOf(items, Text)
      ensures err.None? ==> widgets.Keys == old(widgets).Keys + KeysOf(items, Text)
      ensures old(widgets).Keys <= widgets.Keys <= old(widgets).Keys + KeysOf(items, Text)
      ensures forall k :: k in old(widgets) ==> widgets[k] == old(widgets)[k]
      ensures err.None? ==> TextsShown(widgets, items, |items|)
      ensures err.Some? ==> TextsFailedAt(items, err.value, old(widgets).Keys, widgets)
    {
      var i := 0;
      while i < |items|
        invariant 0 <= i <= |items|
        invariant widgets.Keys == old(widgets).Keys + KeysOf(items[..i], Text)
        invariant KeysOf(items[..i], Text) !! old(widgets).Keys
        invariant forall k :: k in old(widgets) ==> widgets[k] == old(widgets)[k]
        invariant TextsShown(widgets, items, i)
      {
        var (textId, e) := items[i];
        NotYetLoaded(items, i, Text);
        KeysOfMembership(items, Text, FullWidgetId(textId, Text));
        assert items[..i + 1][..i] == items[..i];
        KeysOfPrefix(items, i, Text);
        var r := AddText(textId, e.x, e.y);
        if r.Failure? {
          assert FailedAt(items, Text, i, r.error, old(widgets).Keys);
          return Some(r.error);
        }
        forall j | 0 <= j < i
          ensures FullWidgetId(items[j].0, Text) != FullWidgetId(textId, Text)
        {
          FullWidgetIdInjective(items[j].0, Text, textId, Text);
        }
        i := i + 1;
      }
      assert items[..i] == items;
      return None;
    }

    /** Registers the image buttons of one file table, in order, stopping at the first taken key. */
    method LoadImageButtons(items: seq<(string, ButtonEntry)>) returns (err: Option<DrawerError>)
      requires DistinctIds(items)
      modifies this`widgets
      ensures err.None? <==> KeysOf(items, Button) !! old(widgets).Keys
      ensures err.Some? ==> err.value.DuplicateWidget? && err.value.key in old(widgets) &&
                            err.value.key in KeysOf(items, Button)
      ensures err.None? ==> widgets.Keys == old(widgets).Keys + KeysOf(items, Button)
      ensures old(widgets).Keys <= widgets.Keys <= old(widgets).Keys + KeysOf(items, Button)
      ensures forall k :: k in old(widgets) ==> widgets[k] == old(widgets)[k]
      ensures err.None? ==> ButtonsShown(widgets, items, |items|)
      ensures err.Some? ==> ButtonsFailedAt(items, err.value, old(widgets).Keys, widgets)
    {
      var i := 0;
      while i < |items|
        invariant 0 <= i <= |items|
        invariant widgets.Keys == old(widgets).Keys + KeysOf(items[..i], Button)
        invariant KeysOf(items[..i], Button) !! old(widgets).Keys
        invariant forall k :: k in old(widgets) ==> widgets[k] == old(widgets)[k]
        invariant ButtonsShown(widgets, items, i)
      {
        var (buttonId, e) := items[i];
        NotYetLoaded(items, i, Button);
        KeysOfMembership(items, Button, FullWidgetId(buttonId, Button));
        assert items[..i + 1][..i] == items[..i];
        KeysOfPrefix(items, i, Button);
        var r := AddImageButton(buttonId, e.x, e.y, e.origImageOnRelease);
        if r.Failure? {
          assert FailedAt(items, Button, i, r.error, old(widgets).Keys);
          return Some(r.error);
        }
        forall j | 0 <= j < i
          ensures FullWidgetId(items[j].0, Button) != FullWidgetId(buttonId, Button)
        {
          FullWidgetIdInjective(items[j].0, Button, buttonId, Button);
        }
        i := i + 1;
      }
      assert items[..i] == items;
      return None;
    }

    /**
     * Loads a configuration read from a file: records the path, loads the
     * background if present, registers every text and then every image
     * button, and finally takes the configuration as the saved snapshot. A
     * taken key raises, leaving the widgets registered so far and no new
     * snapshot.
     */
    method LoadConfig(file: ConfigFile, path: string) returns (err: Option<DrawerError>)
      requires file.text.Some? ==> DistinctIds(file.text.value)
      requires file.imageButtons.Some? ==> DistinctIds(file.imageButtons.value)
      modifies this`configPath, this`backgroundPath, this`widgets, this`savedConfig
      ensures configPath == Some(path)
      ensures backgroundPath == if file.background.Some? then file.background.value else old(backgroundPath)
      ensures err.None? <==> FileKeys(file) !! old(widgets).Keys
      ensures err.Some? ==> err.value.DuplicateWidget? && err.value.key in old(widgets) &&
                            err.value.key in FileKeys(file) && savedConfig == old(savedConfig)
      ensures err.None? ==> widgets.Keys == old(widgets).Keys + FileKeys(file)
      ensures err.None? ==> savedConfig == config && !UnsavedChanges()
      ensures old(widgets).Keys <= widgets.Keys <= old(widgets).Keys + FileKeys(file)
      ensures forall k :: k in old(widgets) ==> widgets[k] == old(widgets)[k]
      ensures err.None? ==> && TextsShown(widgets, TextsOf(file), |TextsOf(file)|)
                            && ButtonsShown(widgets, ButtonsOf(file), |ButtonsOf(file)|)
      ensures err.Some? ==> || TextsFailedAt(TextsOf(file), err.value, old(widgets).Keys, widgets)
                            || ButtonsFailed(file, err.value, old(widgets).Keys, widgets)
    {
      configPath := Some(path);
      if file.background.Some? {
        LoadBackground(file.background.value);
      }
      var texts, buttons := TextsOf(file), ButtonsOf(file);
      KeysOfDisjoint(texts, buttons);
      err := None;
      if file.text.Some? {
        err := LoadTexts(texts);
        if err.Some? {
          return;
        }
      }
      assert KeysOf(texts, Text) !! old(widgets).Keys;
      assert widgets.Keys == old(widgets).Keys + KeysOf(texts, Text);
      assert TextsShown(widgets, texts, |texts|);
      ghost var loaded := widgets;
      if file.imageButtons.Some? {
        err := LoadImageButtons(buttons);
        TextsShownKept(loaded, widgets, texts);
        if err.Some? {
          return;
        }
      }
      savedConfig := config;
    }
  }
}
