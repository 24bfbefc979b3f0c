# tkimgloader widget records and ConfigDrawer registry, in Dafny

This project models the core of tkimgloader, a Tk editor that places text
labels and image buttons over a background image and saves the layout as JSON.
The model covers the revision of `tkimgloader/widgets.py` and
`tkimgloader/imgloader.py` that is in the repository.

- `wrappers.dfy` (module `Wrappers`): `Option` and `Result`. The model uses them
  for Python's `None` and for raised exceptions.
- `widgets.dfy` (module `Widgets`): the enumerations `WidgetCategory`,
  `WidgetType` and `ButtonType`, each with its string value, and the `Widget`
  class. A widget has an id, a category, a type and an integer position. Its
  setters check the value the way `isinstance` does. Python callers may pass any
  value, so the model takes a `PyValue` and returns a `ValueError` for a wrong
  one. The model uses one `Widget` class; `CanvasText` and `CanvasImageButton`
  are its named constructors. The button type is an `Option` field that
  is set only for image buttons.
- `imgloader.dfy` (module `ImgLoader`): the `ConfigDrawer` class. It holds:
  - the widget registry, a `map` keyed by `FullWidgetId` ("Button_" or "Text_"
    followed by the id);
  - the nested configuration record `config` and its snapshot `savedConfig`
    (a button entry keeps its images as the file's map from "1", "2", ... to
    paths, since that map is part of what `unsaved_changes` and `__eq__`
    compare);
  - the background path and the configuration path;
  - the key sets of the two drawing caches that `__eq__` compares.

In this revision:

- In this revision, adding or removing a widget changes only the registry and
  never `config`. So registering widgets does not make `UnsavedChanges` true.
- Equality compares `config`, the configuration path and the two cache key
  sets. It does not compare the widgets, the background path or the snapshot.
- Widgets are keyed by type and id, not by an optional label.

Loading a file registers its texts and then its image buttons, one at a time.
A key that is already taken raises a `ValueError` part-way through. The widgets
registered before that point stay, and no new snapshot is taken. `LoadConfig`
models this with an early return, and its contract says exactly which entries
were registered when it stops: the texts before the failing one, or every
text and the buttons before the failing one.

## Model

| member | source | states |
|---|---|---|
| `Widgets.EnumValuesUnique` | tkimgloader/widgets.py:5-23 | within each enumeration, two members have the same string value only if they are the same member |
| `Widgets.CheckCategory` | tkimgloader/widgets.py:39-43 | a category is accepted if and only if it is a `WidgetCategory` member; anything else gives `InvalidCategory` carrying the rejected value |
| `Widgets.CheckType` | tkimgloader/widgets.py:49-53 | a type is accepted if and only if it is a `WidgetType` member; anything else gives `InvalidType` |
| `Widgets.CheckButtonType` | tkimgloader/widgets.py:80-84 | a button type is accepted if and only if it is a `ButtonType` member; anything else gives `InvalidButtonType` |
| `Widgets.CheckWidget` | tkimgloader/widgets.py:27-33 | construction succeeds if and only if both the category and the type are valid; the category is checked first, so a wrong category is the error reported even when the type is also wrong |
| `Widgets.Widget.constructor` | tkimgloader/widgets.py:27-33 | a widget built from valid values stores id, category, type, pos_x and pos_y exactly as given |
| `Widgets.Widget.New` | tkimgloader/widgets.py:27-53 | the constructor fails exactly when `CheckWidget` fails, with the same error; on success it returns a fresh widget holding the given id, category, type and position |
| `Widgets.Widget.CanvasText` | tkimgloader/widgets.py:64-67 | a text widget has category Canvas and type Text, plus the given id and position |
| `Widgets.Widget.CanvasImageButton` | tkimgloader/widgets.py:70-74 | an image button has category Canvas and type Button, plus the given id, position and button type |
| `Widgets.Widget.NewCanvasImageButton` | tkimgloader/widgets.py:70-84 | an image button is built if and only if the button type is a `ButtonType`; otherwise it is a `ValueError` |
| `Widgets.Widget.SetCategory` | tkimgloader/widgets.py:39-43 | the setter raises if and only if the value is not a category; a rejected value leaves the category unchanged, an accepted one is stored |
| `Widgets.Widget.SetWidgetType` | tkimgloader/widgets.py:49-53 | the setter raises if and only if the value is not a widget type; a rejected value leaves the type unchanged, an accepted one is stored |
| `Widgets.Widget.SetButtonType` | tkimgloader/widgets.py:80-84 | the setter raises if and only if the value is not a button type; a rejected value leaves the button type unchanged, an accepted one is stored |
| `Widgets.Widget.MoveTo` | tkimgloader/widgets.py:55-57 | the position becomes exactly (pos_x, pos_y); id, category and type are unchanged |
| `Widgets.Widget.MoveBy` | tkimgloader/widgets.py:59-61 | the position becomes the old position shifted by (x, y); id, category and type are unchanged |
| `Widgets.MovedByInverse` | tkimgloader/widgets.py:59-61 | moving by (x, y) and then by (-x, -y) restores the position |
| `Widgets.MovedByComposes` | tkimgloader/widgets.py:59-61 | two relative moves equal one move by the summed deltas |
| `ImgLoader.FullWidgetId` | tkimgloader/imgloader.py:179-180 | a registry key is the type's value, then "_", then the id |
| `ImgLoader.FullWidgetIdInjective` | tkimgloader/imgloader.py:179-180 | two registry keys are equal if and only if both the ids and the types are equal |
| `ImgLoader.SameIdOncePerType` | tkimgloader/imgloader.py:78-82 | the same id gets different keys as a button and as a text, so it can be registered once per type |
| `ImgLoader.ButtonTypeFor` | tkimgloader/imgloader.py:154-158 | orig_on_release true gives RELEASE and false gives SWITCH |
| `ImgLoader.KeysOfMembership` | tkimgloader/imgloader.py:117-129 | a key is registered by loading a file table if and only if it is the key of one of the table's entries |
| `ImgLoader.KeysOfDisjoint` | tkimgloader/imgloader.py:117-129 | loading the text table and loading the image-button table never produce the same key |
| `ImgLoader.ButtonMovedBy` | tkimgloader/imgloader.py:165-176 | moving a button adds dx to its x and dy to its y; its other fields, every other button, the texts and the background are unchanged |
| `ImgLoader.ButtonMoveRoundTrip` | tkimgloader/imgloader.py:171-176 | moving a button by (dx, dy) and then by (-dx, -dy) restores the configuration |
| `ImgLoader.ButtonMovesCompose` | tkimgloader/imgloader.py:171-176 | two moves of one button equal one move by the summed deltas |
| `ImgLoader.ButtonMoveChangesConfig` | tkimgloader/imgloader.py:36-39 | a move changes the configuration if and only if a delta is non-zero, so starting from a saved state it sets unsaved_changes exactly then |
| `ImgLoader.EqualsIsEquivalence` | tkimgloader/imgloader.py:47-76 | drawer equality is reflexive, symmetric and transitive, and it holds whenever config, config path and the two cache key sets agree, whatever the widgets |
| `ImgLoader.ConfigDrawer.constructor` | tkimgloader/imgloader.py:17-34 | a new drawer has no widgets, the empty background path, no config path, the initial configuration as both config and snapshot, and no unsaved changes |
| `ImgLoader.ConfigDrawer.UnsavedChanges` | tkimgloader/imgloader.py:36-39 | there are unsaved changes exactly when the configuration differs from the snapshot taken at the last load or save |
| `ImgLoader.ConfigDrawer.Equals` | tkimgloader/imgloader.py:47-76 | two drawers are equal exactly when their configurations, configuration paths and the key sets of the two image caches are equal |
| `ImgLoader.ConfigDrawer.ContainsWidget` | tkimgloader/imgloader.py:94-95 | a widget is contained exactly when the key formed from its id and type is in the registry |
| `ImgLoader.ConfigDrawer.ImageButtonIdAvailable` | tkimgloader/imgloader.py:151-152 | a button id is available exactly when no button with that id is contained |
| `ImgLoader.ConfigDrawer.AddWidget` | tkimgloader/imgloader.py:78-87 | a taken key raises and leaves the registry unchanged; otherwise exactly that key is added, mapped to the widget, and `ContainsWidget` then holds |
| `ImgLoader.ConfigDrawer.RemoveWidget` | tkimgloader/imgloader.py:89-92 | exactly the widget's key is deleted and no other entry; afterwards `ContainsWidget` is false and, for a button, `ImageButtonIdAvailable` is true; a missing key raises and changes nothing |
| `ImgLoader.ConfigDrawer.LoadBackground` | tkimgloader/imgloader.py:97-98 | the background path becomes the given path; the configuration is not touched |
| `ImgLoader.ConfigDrawer.AddText` | tkimgloader/imgloader.py:144-148 | registers a fresh Canvas/Text widget with the given id and position under "Text_" + id, or raises on a taken key and changes nothing |
| `ImgLoader.ConfigDrawer.AddImageButton` | tkimgloader/imgloader.py:154-163 | registers a fresh Canvas/Button widget under "Button_" + id, with the button type `ButtonTypeFor` gives, or raises on a taken key and changes nothing |
| `ImgLoader.ConfigDrawer.UpdateImagePosition` | tkimgloader/imgloader.py:165-167 | the button's configured x and y become the given values; nothing else in the configuration changes |
| `ImgLoader.ConfigDrawer.MoveImageButton` | tkimgloader/imgloader.py:171-176 | the configuration becomes `ButtonMovedBy` of the old one: x becomes old x + move_x and y becomes old y + move_y |
| `ImgLoader.ConfigDrawer.SaveConfigToFile` | tkimgloader/imgloader.py:138-141 | the config path becomes the given path, the snapshot equals the configuration, and there are no unsaved changes |
| `ImgLoader.ConfigDrawer.LoadTexts` | tkimgloader/imgloader.py:117-121 | the text entries are registered in order; this raises if and only if one of their keys was already taken; on success every entry's key is registered to a Canvas/Text widget with the entry's id and position; on failure at entry i the error names that entry's key, which was taken beforehand, and exactly the entries before i were registered, each with its id and position; existing entries are never changed |
| `ImgLoader.ConfigDrawer.LoadImageButtons` | tkimgloader/imgloader.py:123-129 | the same for image-button entries, on success and on failure, with each registered button's type chosen from orig_image_on_release |
| `ImgLoader.ConfigDrawer.LoadConfig` | tkimgloader/imgloader.py:109-131 | the config path is set and the background is loaded when the file has one; loading raises if and only if a key of the file is already registered; on success the registry grows by exactly the file's keys, every text and button entry is registered to a Canvas widget with its id, position and (for a button) button type, and the snapshot equals the configuration, so there are no unsaved changes; on failure the snapshot is unchanged and either the failing entry is a text and exactly the texts before it were registered, or every text and exactly the buttons before the failing one were registered |

## Left out

- Drawing is not modelled: the canvas, `draw`/`destroy`, `canvas.coords`, `canvas.create_image` and image decoding with `ImageTk.PhotoImage`. This covers the `redraw`/`draw` branches and the filling of the image caches. The model follows the `redraw=False` path. The cache key sets therefore never change, although `__eq__` compares them.
- `dimensions`: it depends on the size of the decoded background image.
- JSON file I/O (`load_json`, `dump_json`, `load_config_file`) is not modelled. A loaded file is given to `LoadConfig` as a `ConfigFile` value. Saving takes the snapshot and does not write anything.
- `canvas_text_details` is not modelled: `__init__` sets it to an empty dict and no other code in this revision reads or writes it.
- Logging and the diagnostic prints inside `__eq__` are not modelled.
- AddText: `add_text` passes a `text` argument that `CanvasText` does not accept, so in Python the call fails before it registers anything. The model builds the widget from id and position only, and an entry's `text` is not stored on the widget.
- AddImageButton: `add_image_button` passes `image_list` and `current_image`, which `CanvasImageButton` does not accept. The model builds the button from id, position and button type only, so the images and the current image of an entry are not stored on the widget.
- RemoveWidget: `remove_widget` calls `destroy()`, a method `Widget` does not have, before it deletes the entry. The model leaves that rendering call out and models the deletion.
- MoveImageButton: a `button_id` with no entry in `config['image_buttons']` raises `KeyError` in Python. The model does not include that error path; a precondition requires the entry to exist.
- LoadConfig: a file table with duplicate ids is excluded by a precondition, because the table was read from a JSON object whose keys are unique.
- Positions are unbounded integers. Python also accepts floats for them, and those are not modelled.
- The editor UI and its dialogs (`tkimgloader/editor.py`, `tkimgloader/scripts/editor.py`) are outside this model.
