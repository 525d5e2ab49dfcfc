# GUI demos: verified state models

This project models the state logic underneath a collection of small Rust
GUI and game demos, and proves what that logic guarantees. Rendering,
audio devices and file access are left out. The models cover:

- **Pong**:
  - the ball moves by its velocity and reflects off the top and bottom walls;
  - two paddles move in steps of 5 and are clamped to the board;
  - the controller bounces the ball off the paddles and resets it when it leaves the board horizontally.
- **Paint**:
  - the canvas keeps an append-only stroke history that can be cleared;
  - the brush is a pressed/held/released machine that decides which strokes are recorded;
  - `draw` replays the history as a sequence of circle stamps.
- **Todo list**:
  - the list holds at most 12 items;
  - removal is mark-and-sweep, and ids are renumbered afterwards so that they equal indices;
  - items have done and delete toggles;
  - the add-item dialog has two modes;
  - the generic helpers are a text label, a corner/size rectangle, ordered scenes, anchor points and screen percentages.
- **Music visualizer 1.0**:
  - title parsing from the file name;
  - the sample-filling output callback;
  - play/pause state with the stream it owns;
  - a rising-edge play button;
  - first-match song selection;
  - the 200-pixel menu/view layout;
  - the menu → song → view propagation of the playing flag.
- **Playlist**: an append-only track list and its controller.
- **Clamped square**: four arrow-key moves, then a clamp that keeps the square on the 600 × 600 screen.

Every source file that updates state in place is a class. Each class has methods with `modifies` clauses, and each method's postcondition states the whole new state. Where a class has a snapshot function (`State()` or `Items()`) returning a datatype, the postcondition ties the new snapshot to a pure step function of the old one (`PongBall.Step`, `TodoList.Sweep`, `MusicSong.Updated`, ...); otherwise it gives each field written, as a function of the old fields and the inputs (`PaintController.NextHistory`, `PaintController.NextLastConnected`).

Multi-tick scenarios and invariants are lemmas over those step functions. Loops in the source are loops here, with their invariants. Pong is modelled in integers, because every constant there is a whole number. The other demos use `real` coordinates.

Behaviour of the code worth knowing, which the model follows as written:

- **Ball overshoot.** The ball tests the wall only after it has moved (pong/src/ball.rs:23-27), so its edge can pass the wall by up to one step before it reflects. From the start position the first reflection happens at y = 592, where the bottom edge is at 602 on a 600-high board. `PongBall.FirstBounce` proves this.
- **Left bounce.** The right-paddle test runs after the left one (pong/src/controller.rs:28-42), so it would override a left bounce if both held. From `Controller::new` that cannot happen: the paddles stay at x = 20 and x = 580, so no ball position meets both tests. Every left contact therefore ends the tick moving right. `PongController.Bounces` proves this.
- **Pause restarts the song.** `Song::pause` is documented as keeping the playback position (music_visualizer_1-0/src/song.rs:139). The output callback only advances its own copy of the frame counter (song.rs:106, 119), so `current_frame` is never written back, and every new stream starts from frame 0. `MusicSong.Song.Update` keeps `currentFrame` unchanged.
- **`Song::new`.** The music controller calls `Song::new()` (music_visualizer_1-0/src/controller.rs:59), which the song module does not define. The model uses `Song::empty()` there.

## Model

| member | source | states |
|---|---|---|
| PongConstants.BoardGeometry | pong/src/assets/constants.rs:4-18 | 600 × 600 board; both paddles start vertically centred, inside the clamp range [0, 500]; the right paddle lies within the board width; the ball starts at least a radius from every wall; the divider is 10 wide, centred, and spans the full height |
| PongBall.Step | pong/src/ball.rs:22-28 | one update adds the velocity to the position exactly once; vy is negated exactly when the moved ball touches the top or bottom wall; vx, the radius and the magnitude of vy never change |
| PongBall.RisingPhase | pong/src/ball.rs:23-27 | from `Ball::new`, for the first 98 ticks the ball moves diagonally at (295 + 3n, 295 + 3n) with velocity (3, 3) |
| PongBall.FirstBounce | pong/src/ball.rs:23-27 | tick 98: y = 589 and vy = 3; tick 99: y = 592 and vy = -3, with the ball's edge past the wall (602 > 600); tick 100: y = 589, moving up |
| PongBall.Ball.constructor | pong/src/ball.rs:13-20 | position (295, 295), velocity (3, 3), radius 10 |
| PongBall.Ball.Update | pong/src/ball.rs:22-28 | the new state is `Step` of the old one |
| PongBall.Ball.SetVelocityX | pong/src/ball.rs:42-44 | only vx changes; position, vy and radius are untouched |
| PongPaddle.Initial | pong/src/paddle.rs:13-22 | paddle 1 starts at (20, 250), paddle 2 at (580, 250), both on the board, keeping the id |
| PongPaddle.Moved | pong/src/paddle.rs:49-51 | a move shifts y by dy and clamps it to [0, 500]: below 0 gives 0, above 500 gives 500; x and id are kept |
| PongPaddle.StepInRange | pong/src/paddle.rs:24-46 | an update keeps the paddle on the board and never changes x or id |
| PongPaddle.KeyBindings | pong/src/paddle.rs:26-43 | paddle 1 reacts only to W/S and paddle 2 only to the arrow keys; with neither of its keys held a paddle stays put |
| PongPaddle.BothKeysHeld | pong/src/paddle.rs:28-33 | up then down with a clamp after each ends at max(y, 5): 0 goes to 5, 500 stays, the interior nets zero |
| PongPaddle.HoldDownReaches | pong/src/paddle.rs:31-32 | holding S for n ticks gives min(y + 5n, 500) and keeps x and id |
| PongPaddle.HoldDownScenario | pong/src/paddle.rs:31-32 | from y = 250, holding S for 10 ticks gives 300 and for 60 ticks gives 500 |
| PongPaddle.Paddle.constructor | pong/src/paddle.rs:13-22 | only ids 1 and 2 are accepted; the paddle starts at `Initial(id)` |
| PongPaddle.Paddle.Update | pong/src/paddle.rs:24-46 | the new state is the key-driven step of the old one |
| PongPaddle.Paddle.MovePaddle | pong/src/paddle.rs:49-51 | the new state is `Moved(old, dy)` |
| PongController.Collide | pong/src/controller.rs:28-42 | the collision tests change only the sign of vx; a right hit forces vx = -abs(vx) (it wins over a left hit); a left hit alone forces vx = abs(vx); no hit changes nothing |
| PongController.InitialInv | pong/src/controller.rs:14-20 | `new` satisfies the invariant: speed 3 on both axes, radius 10, each paddle on its side and on the board |
| PongController.TickPreservesInv | pong/src/controller.rs:22-48 | every tick, with any keys, preserves that invariant |
| PongController.RunPreservesInv | pong/src/controller.rs:22-48 | any sequence of ticks preserves the invariant |
| PongController.Bounces | pong/src/controller.rs:23-42 | the tests look at the moved ball and moved paddles; with the paddles on their sides no ball meets both tests, so every left contact ends the tick with vx = 3 (also when the ball is reset), and a right hit gives vx = -3 unless the ball is then reset |
| PongController.Resets | pong/src/controller.rs:45-47 | a ball that leaves [0, 600] horizontally becomes exactly `Ball::new()`; e.g. any ball beyond x = 603 is reset on the next tick |
| PongController.CollisionOnlyTouchesVx | pong/src/controller.rs:28-42 | without a reset, the tick moves the ball exactly as the ball alone would, except for vx |
| PongController.IdleRunIsBallAlone | pong/src/controller.rs:22-48 | with no key held, for 99 ticks from `new` the paddles stay put and the ball moves as it would alone |
| PongController.IdleScenario | pong/src/controller.rs:22-48 | in the full game with no keys: tick 98 has y = 589 and vy = 3; tick 99 has y = 592 and vy = -3 |
| PongController.Controller.constructor | pong/src/controller.rs:14-20 | `Ball::new()`, paddle 1 and paddle 2, with the invariant established |
| PongController.Controller.Update | pong/src/controller.rs:22-48 | paddles, then ball, then the two collision tests, then the reset; the new state is `Tick` of the old one, and the invariant is kept |
| Common.Clamp | egui-macroquad-ex/src/main.rs:57-58 | `f32::clamp`: the result lies in [lo, hi], equals v inside, and equals the violated bound outside |
| Common.FirstWhere | music_visualizer_1-0/src/menu.rs:163-165 | the first index whose element satisfies the predicate, with no earlier element satisfying it; none exactly when no element does |
| PaintScreen.ToColor | paint/src/screen.rs:5-12 | each 0..255 channel c becomes c / 255, within [0, 1] |
| PaintScreen.ToColorExact | paint/src/screen.rs:5-12 | 0 maps to 0, 255 maps to 1, and the conversion is injective |
| PaintScreen.SegmentEnds | paint/src/screen.rs:64-76 | for steps > 0 a segment has steps + 1 stamps, the first at the previous position (t = 0), the last at the current one (t = 1) |
| PaintScreen.LoneStamps | paint/src/screen.rs:60 | the first stroke's connected flag is ignored; an unconnected stroke stamps only its own circle |
| PaintScreen.PlanPrefix | paint/src/screen.rs:58-86 | replaying more strokes only extends the stamp sequence |
| PaintScreen.PlanLast | paint/src/screen.rs:79-85 | the last stamp of a replay is the last stroke's own circle |
| PaintScreen.OwnStampAt | paint/src/screen.rs:79-85 | stroke i's own circle stays at the same place in every longer replay |
| PaintScreen.OwnStampsInOrder | paint/src/screen.rs:58-85 | every stroke's own circle is stamped at its position, and these circles come in history order |
| PaintScreen.Screen.constructor | paint/src/screen.rs:31-36 | empty history, `last_was_connected` false |
| PaintScreen.Screen.AddStroke | paint/src/screen.rs:39-48 | exactly one stroke with the given fields is appended at the end, earlier strokes unchanged; the flag equals `is_connected` |
| PaintScreen.Screen.Clear | paint/src/screen.rs:51-54 | empty history and flag false, whatever the state before (so clearing is idempotent) |
| PaintScreen.StampSegment | paint/src/screen.rs:64-76 | the inner loop stamps exactly the segment: for j = 0 ..= steps, a circle at fraction j / steps of the way from the previous stroke, in the current stroke's size and colour |
| PaintScreen.Screen.Draw | paint/src/screen.rs:57-87 | the nested loop stamps exactly `Plan(history)`: for each stroke, its interpolated segment when connected and not first, then its own circle |
| PaintBrush.Appended | paint/src/brush.rs:30-39 | a press always records an unconnected stroke first; with the button up, only that stroke (or nothing without a press) is recorded; a press with the button down records unconnected then connected; drawing and held without a new press records exactly one connected stroke; not drawing and not pressed records nothing |
| PaintBrush.NextDrawing | paint/src/brush.rs:30-44 | a release always ends drawing; otherwise drawing continues or starts on a press |
| PaintBrush.Brush.constructor | paint/src/brush.rs:15-22 | black, size 10, at the origin, not drawing |
| PaintBrush.Brush.Update | paint/src/brush.rs:25-45 | position, colour and size always take their arguments; the history grows by `Appended`; the flag follows `NextDrawing` |
| PaintController.NextHistory | paint/src/controller.rs:24-43 | a Clear click empties the history, including this frame's strokes; with the button up nothing is recorded; otherwise the history only grows, with strokes in the window's size and colour at the mouse position |
| PaintController.Controller.constructor | paint/src/controller.rs:14-21 | `Brush::new()`, `Screen::new()` and the default settings |
| PaintController.NextLastConnected | paint/src/controller.rs:29-42 | a Clear click resets `last_was_connected`; a frame that records strokes leaves it set; any other frame keeps it |
| PaintController.NextLastConnectedAgrees | paint/src/controller.rs:29-42 | after a frame that recorded strokes and did not clear, the flag says whether the newest stroke is connected |
| PaintController.Controller.Update | paint/src/controller.rs:24-43 | the whole new state: the settings are the window's; the history is `NextHistory` and the flag `NextLastConnected` of the old ones; with the button down the brush takes the mouse position and the window's colour and size and `NextDrawing`, with it up the brush is unchanged |
| PaintController.Controller.Draw | paint/src/controller.rs:46-48 | the replay of the screen's history; nothing changes |
| EguiAssets.TextLabel.NewWithSize | egui-example/src/assets/egui_utils.rs:28-34 | text, position and size stored unchanged |
| EguiAssets.TextLabel.SetPosition | egui-example/src/assets/egui_utils.rs:37-39 | only the position changes |
| EguiAssets.Scene.constructor | egui-example/src/assets/egui_utils.rs:61-63 | the scene starts empty |
| EguiAssets.Scene.Add | egui-example/src/assets/egui_utils.rs:66-68 | exactly one object is appended at the end |
| EguiAssets.Scene.Update | egui-example/src/assets/egui_utils.rs:82-86 | every object is updated exactly once, in place and in order |
| EguiAssets.Scene.Draw | egui-example/src/assets/egui_utils.rs:71-77 | every object draws itself exactly once, in insertion order, in place: each becomes its state after drawing, and what each paints comes out in that order |
| TodoListItem.Clicked | egui-example/src/list_item.rs:82-94 | a main click toggles done and a delete click sets to-remove, each independent of the other; id, position and text are kept |
| TodoListItem.ClickFacts | egui-example/src/list_item.rs:82-94 | two main clicks restore the item; once set, to-remove stays set |
| TodoListItem.Label | egui-example/src/list_item.rs:50-54 | the caption is a five-character mark followed by the text |
| TodoListItem.LabelReadsBack | egui-example/src/list_item.rs:50-54 | the caption starts with ✅ exactly when done (⬜ otherwise), then " \|  ", then the text |
| TodoListItem.LayoutIncreasing | egui-example/src/list_item.rs:31-37 | rows sit at x = w/2 and y = 0.07·h·(id + 1.5), so y increases strictly with id on a screen of positive height |
| TodoListItem.ListItem.constructor | egui-example/src/list_item.rs:20-28 | the given text and id, at (0, 0), not done, not marked |
| TodoListItem.ListItem.SetId | egui-example/src/list_item.rs:41-43 | only the id changes |
| TodoListItem.ListItem.Update | egui-example/src/list_item.rs:31-38 | only the position changes, to the layout position of the item's id |
| TodoListItem.ListItem.Draw | egui-example/src/list_item.rs:48-95 | returns the caption for the state before the clicks, then applies the clicks |
| TodoList.CapacityIsTwelve | egui-example/src/todo_list.rs:29-33 | the capacity floor(800 / (40 × 1.65)) is 12 |
| TodoList.Kept | egui-example/src/todo_list.rs:54 | the retained items are unmarked members of the list, no more of them than before |
| TodoList.KeptConcat | egui-example/src/todo_list.rs:54 | the retain acts item by item and never reorders |
| TodoList.KeptSingle | egui-example/src/todo_list.rs:54 | a single item is kept exactly when it is not marked |
| TodoList.KeptMembers | egui-example/src/todo_list.rs:54 | an item survives exactly when it was in the list and not marked |
| TodoList.KeptNothingMarked | egui-example/src/todo_list.rs:54 | with nothing marked, nothing is removed |
| TodoList.Renumbered | egui-example/src/todo_list.rs:57-59 | item k gets id k, and nothing else changes |
| TodoList.SweepFacts | egui-example/src/todo_list.rs:52-59 | after the sweep, ids equal indices and nothing is marked, so a second sweep changes nothing |
| TodoList.AddedFacts | egui-example/src/todo_list.rs:28-37 | while there is room, add appends exactly one fresh item with id = old length; a full list is unchanged; the bound of 12 and ids = indices are kept |
| TodoList.LaidOut | egui-example/src/todo_list.rs:67-69 | each item gets the layout position of its id, and nothing else changes |
| TodoList.Clicks | egui-example/src/todo_list.rs:44-46 | each item handles its own clicks, in list order |
| TodoList.ClicksKeepIds | egui-example/src/todo_list.rs:44-46 | handling clicks never renumbers: ids that equal indices still do |
| TodoList.LaidOutKeepsIds | egui-example/src/todo_list.rs:67-69 | laying out moves items but keeps ids equal to indices |
| TodoList.Snapshot | egui-example/src/todo_list.rs:13 | the list's state, item by item |
| TodoList.KeptItems | egui-example/src/todo_list.rs:54 | the object-level retain keeps only items of the list |
| TodoList.KeptItemsFacts | egui-example/src/todo_list.rs:54 | the object-level retain keeps distinct items distinct, and its snapshot is `Kept` of the old snapshot |
| TodoList.TodoList.constructor | egui-example/src/todo_list.rs:19-24 | an empty list; a title label with the given name at (0, 0), size 24 |
| TodoList.TodoList.Add | egui-example/src/todo_list.rs:28-37 | the items become `Added(old, text)`: one fresh object appended while there is room, the list unchanged when full; the invariant is kept |
| TodoList.TodoList.Update | egui-example/src/todo_list.rs:52-70 | the items become the laid-out sweep of the old ones; no item object is created; the title sits at (w/2, 0.05·h) |
| TodoList.TodoList.SweepItems | egui-example/src/todo_list.rs:54-59 | the retain, then the renumbering: the items become `Sweep(old)` |
| TodoList.TodoList.PlaceTitle | egui-example/src/todo_list.rs:62-64 | the title moves to the top centre, 5% of the height down |
| TodoList.TodoList.Retain | egui-example/src/todo_list.rs:54 | the list keeps exactly the unmarked items, in order |
| TodoList.TodoList.Renumber | egui-example/src/todo_list.rs:57-59 | item k gets id k |
| TodoList.TodoList.LayOut | egui-example/src/todo_list.rs:67-69 | each item's own `update`, in order |
| TodoList.TodoList.Draw | egui-example/src/todo_list.rs:41-47 | each item yields its caption from its old state, and the items become `Clicks` of the old ones; the invariant is kept |
| TodoController.LeadEnd | egui-example/src/controller.rs:63 | the end of the whitespace run starting at i |
| TodoController.TrailStart | egui-example/src/controller.rs:63 | the start of the whitespace run ending at j |
| TodoController.Trim | egui-example/src/controller.rs:63 | `str::trim` is never longer than its input |
| TodoController.TrimIsSlice | egui-example/src/controller.rs:63 | the trim is a contiguous slice; everything cut away is whitespace; a non-empty result neither starts nor ends with whitespace |
| TodoController.TrimEmptyIff | egui-example/src/controller.rs:63 | the trim is empty exactly when every character is whitespace |
| TodoController.DialogModes | egui-example/src/controller.rs:59-92 | "Add Item" opens the dialog; "Done" always clears the text and closes the dialog; nothing else changes the mode; nothing is submitted in browsing mode |
| TodoController.DoneSubmitsNonBlank | egui-example/src/controller.rs:63-65 | "Done" submits exactly the texts with a non-whitespace character, and submits them untrimmed |
| TodoController.AddMilkScenario | egui-example/src/controller.rs:59-92 | open the dialog, type "milk", click "Done": an empty list gains one item "milk" with id 0, and the dialog closes |
| TodoController.BlankScenario | egui-example/src/controller.rs:63-67 | a whitespace-only entry adds nothing, and the dialog still closes |
| TodoController.Controller.ShowsInputField | egui-example/src/controller.rs:110-114 | the input field shows exactly in adding mode |
| TodoController.Controller.constructor | egui-example/src/controller.rs:22-30 | an empty list titled "Todo List:", not adding, empty input text |
| TodoController.Controller.Add | egui-example/src/controller.rs:33-35 | delegates to the list's add, so the capacity bound applies |
| TodoController.Controller.DisplayAddOption | egui-example/src/controller.rs:38-71 | the field holds the typed text; "Done" adds it if it is not blank, then clears it and closes the dialog |
| TodoController.Controller.DisplayAddButton | egui-example/src/controller.rs:74-94 | an "Add Item" click opens the dialog |
| TodoController.Controller.Update | egui-example/src/controller.rs:98-102 | the list's update: the laid-out sweep |
| TodoController.Controller.Draw | egui-example/src/controller.rs:105-116 | the list handles its items' clicks first, then the dialog handles its inputs in its current mode |
| EguiUtils.TextLabel.constructor | egui-example/src/egui_utils.rs:15-20 | text and position stored unchanged |
| EguiUtils.TextLabel.GetText | egui-example/src/egui_utils.rs:22-24 | returns the text the label was built with, which no operation rewrites |
| EguiUtils.TextLabel.SetPosition | egui-example/src/egui_utils.rs:26-28 | only the position changes |
| EguiUtils.CornerSizeRoundTrip | egui-example/src/egui_utils.rs:52-76 | corner → size → corner and size → corner → size are both the identity |
| EguiUtils.FromTwoPos | egui-example/src/egui_utils.rs:77 | the box spanned by two points, normalised so min ≤ max, with the same coordinates |
| EguiUtils.Rectangle.constructor | egui-example/src/egui_utils.rs:52-59 | width = br.x - tl.x and height = br.y - tl.y; the corner rebuilt in `draw` is the one passed in |
| EguiUtils.Rectangle.GetWidth | egui-example/src/egui_utils.rs:61-63 | the width is the distance between the corners in x |
| EguiUtils.Rectangle.GetHeight | egui-example/src/egui_utils.rs:65-67 | the height is the distance between the corners in y |
| EguiUtils.Rectangle.SetPosition | egui-example/src/egui_utils.rs:69-71 | the top-left corner moves and the size is kept, so the far corner moves by the same displacement |
| EguiUtils.Rectangle.Draw | egui-example/src/egui_utils.rs:74-80 | the filled box is spanned by the two corners; for a non-negative size it is exactly (top-left, bottom-right) |
| EguiUtils.Scene.constructor | egui-example/src/egui_utils.rs:96-98 | the scene starts empty |
| EguiUtils.Scene.Add | egui-example/src/egui_utils.rs:100-102 | one object appended, so the length grows by 1 |
| EguiUtils.Scene.Remove | egui-example/src/egui_utils.rs:104-106 | requires index < len; one object is removed and the others keep their order |
| EguiUtils.Scene.Len | egui-example/src/egui_utils.rs:108-110 | the number of objects |
| EguiUtils.Scene.Update | egui-example/src/egui_utils.rs:121-127 | every object is updated exactly once, in order |
| EguiUtils.Scene.Draw | egui-example/src/egui_utils.rs:113-119 | every object draws itself exactly once, in insertion order, without changing, and what each paints comes out in that order |
| EguiUtils.AddThenRemove | egui-example/src/egui_utils.rs:100-106 | removing the object just added gives the scene back |
| EguiUtils.KeyCoord | egui-example/src/egui_utils.rs:131-174 | all nine anchors lie in [0, w] × [0, h] for a non-negative screen size |
| EguiUtils.KeyCoordsSymmetric | egui-example/src/egui_utils.rs:131-174 | the centre (w/2, h/2) is the midpoint of every pair of opposite anchors, and each edge midpoint halves its edge |
| EguiUtils.PercentageOf | egui-example/src/egui_utils.rs:178-186 | a fraction in [0, 1] of a non-negative screen width or height lies between 0 and that extent; 100% is the whole extent and 0% is nothing |
| NannouRect.FromXYWH | music_visualizer_1-0/src/controller.rs:41-54 | a rectangle from a centre and a size: width and height are the distances between its edges, and its centre is the midpoint of the edges |
| MusicSong.Upper | music_visualizer_1-0/src/song.rs:160 | uppercases a-z, keeps every other character, and never produces or removes a hyphen |
| MusicSong.LastIndexOf | music_visualizer_1-0/src/song.rs:149 | `rfind`: the index of the last occurrence, and none exactly when the character is absent |
| MusicSong.Split | music_visualizer_1-0/src/song.rs:155 | `split('-')` always yields at least one piece |
| MusicSong.Capitalize | music_visualizer_1-0/src/song.rs:157-161 | the capitalised word has the same length as the word |
| MusicSong.CapitalizeAll | music_visualizer_1-0/src/song.rs:156-163 | each word is capitalised, in order |
| MusicSong.TitleByChars | music_visualizer_1-0/src/song.rs:154-164 | the per-character reading of the title has the text's length |
| MusicSong.SplitJoinByChars | music_visualizer_1-0/src/song.rs:154-164 | split, capitalise and join agree with the per-character reading |
| MusicSong.ParseTitleByChars | music_visualizer_1-0/src/song.rs:146-165 | the title has the length of the name without its extension; each hyphen becomes one space; word starts are uppercased; every other character is unchanged |
| MusicSong.StripExtensionFacts | music_visualizer_1-0/src/song.rs:148-151 | everything from the last '.' is dropped; a name without a '.' is kept whole |
| MusicSong.TitleHasNoHyphen | music_visualizer_1-0/src/song.rs:155-164 | the title has no hyphen left |
| MusicSong.StripExtensionExample | music_visualizer_1-0/src/song.rs:148-151 | "charleston-girl-live.wav" loses ".wav" |
| MusicSong.TitleByCharsExample | music_visualizer_1-0/src/song.rs:154-164 | "charleston-girl-live" reads "Charleston Girl Live" |
| MusicSong.ParseTitleExample | music_visualizer_1-0/src/song.rs:146-165 | "charleston-girl-live.wav" gives "Charleston Girl Live" |
| MusicSong.Samples | music_visualizer_1-0/src/song.rs:113-120 | the callback's output for n slots has n samples |
| MusicSong.SamplesConcat | music_visualizer_1-0/src/song.rs:113-120 | two consecutive buffers hold what one buffer of their joint size would, so playback is contiguous |
| MusicSong.SamplesAfterEnd | music_visualizer_1-0/src/song.rs:114-118 | past the end of the song only silence is written |
| MusicSong.OutputStream.constructor | music_visualizer_1-0/src/song.rs:105-106 | the stream keeps the samples and its own copy of the frame counter |
| MusicSong.OutputStream.Fill | music_visualizer_1-0/src/song.rs:111-121 | each slot gets the next sample, or 0.0 past the end, and the counter advances once per slot |
| MusicSong.Updated | music_visualizer_1-0/src/song.rs:69-76 | after `update(b)` the song is playing exactly when b |
| MusicSong.UpdatedFacts | music_visualizer_1-0/src/song.rs:69-144 | no stream unless playing; the stream is touched only when the state changes; a pause drops the stream; a start holds a stream exactly when building it succeeded |
| MusicSong.FailedStartStaysSilent | music_visualizer_1-0/src/song.rs:69-134 | a start whose stream could not be built is not retried while the song stays playing |
| MusicSong.Song.Empty | music_visualizer_1-0/src/song.rs:52-61 | not playing, no stream, no samples, frame 0, empty title and file name |
| MusicSong.Song.FromFile | music_visualizer_1-0/src/song.rs:31-49 | not playing, no stream, frame 0; the loaded samples, or none when loading failed; title = `parse_title(name)`; file name = name |
| MusicSong.Song.Update | music_visualizer_1-0/src/song.rs:69-76 | the state becomes `Updated(old)`; a new stream starts at the song's frame counter, which never changes |
| MusicSong.Song.IsPlaying | music_visualizer_1-0/src/song.rs:82-84 | the playing flag |
| MusicSong.Song.Play | music_visualizer_1-0/src/song.rs:94-135 | no-op when a stream exists; otherwise a fresh stream appears exactly when building it succeeds |
| MusicSong.Song.Pause | music_visualizer_1-0/src/song.rs:140-144 | the stream is dropped |
| MusicView.Background | music_visualizer_1-0/src/view.rs:61-65 | green (0, 0.5, 0) when playing, red (0.5, 0, 0) otherwise, both at alpha 0.8 |
| MusicView.StatusText | music_visualizer_1-0/src/view.rs:74 | "PLAYING" exactly when playing, "PAUSED" exactly when not |
| MusicView.StatesDistinguishable | music_visualizer_1-0/src/view.rs:61-74 | the two states differ in both colour and caption |
| MusicView.View.constructor | music_visualizer_1-0/src/view.rs:30-35 | stores the rectangle; not playing |
| MusicView.View.Update | music_visualizer_1-0/src/view.rs:43-45 | only the playing flag changes, to the argument |
| MusicView.View.Draw | music_visualizer_1-0/src/view.rs:59-80 | the view's rectangle in the state's colour, with the state's caption |
| MusicLibrary.FirstTitled | music_visualizer_1-0/src/music_library.rs:80-85 | the first song with the title, or none when no song has it |
| MusicLibrary.Library.constructor | music_visualizer_1-0/src/music_library.rs:36-43 | one song per file name, in order, each titled by `parse_title`; `Song::empty()` is selected: not playing, no stream, frame 0, no samples, empty title and file name |
| MusicLibrary.Library.SelectSong | music_visualizer_1-0/src/music_library.rs:78-87 | an unknown title leaves the selection alone; otherwise the selection is rebuilt from the file of the first song with that title, and then carries that title, its file's samples (none if the read failed), no stream, not playing, at frame 0 |
| MusicLibrary.Library.SongNames | music_visualizer_1-0/src/music_library.rs:93-96 | the titles, same length and order as the songs |
| MusicLibrary.Library.HasSelectedSong | music_visualizer_1-0/src/music_library.rs:102-105 | true exactly when the selected title is not empty |
| MusicLibrary.ListedTitlesAreFound | music_visualizer_1-0/src/music_library.rs:78-96 | every listed title is found, at or before its own position |
| MusicMenu.PlayButtonLayout | music_visualizer_1-0/src/menu.rs:58-63 | the play button is centred on the menu's x, 80% of the menu width, 50 high, centred at menu.y + 0.3·h |
| MusicMenu.FirstHit | music_visualizer_1-0/src/menu.rs:84-92 | the first button under the mouse, or none when no button contains it |
| MusicMenu.FirstTagged | music_visualizer_1-0/src/menu.rs:163-165 | the first button with the tag, or none |
| MusicMenu.ToggleOnlyOnRisingEdge | music_visualizer_1-0/src/menu.rs:83-92 | playback toggles exactly on a fresh press whose first button hit is the play button; a press outside every button changes nothing |
| MusicMenu.HeldPressTogglesOnce | music_visualizer_1-0/src/menu.rs:83-95 | a press held across frames toggles at most once, wherever the mouse moves |
| MusicMenu.SongLabelsDescend | music_visualizer_1-0/src/menu.rs:147-152 | song labels start 150 below the top and are 100 apart, strictly downwards |
| MusicMenu.PlayButtonCaption | music_visualizer_1-0/src/menu.rs:134 | the caption is "PAUSE" exactly while playing and "PLAY" exactly while paused |
| MusicMenu.PlayButtonColor | music_visualizer_1-0/src/menu.rs:124 | the button is green exactly while playing and red exactly while paused |
| MusicMenu.PlayButtonDistinguishable | music_visualizer_1-0/src/menu.rs:124-134 | the two states always differ in colour and in caption |
| MusicMenu.Menu.DrawPlaybackControls | music_visualizer_1-0/src/menu.rs:122-144 | the play button found by its tag (the unwrap is the precondition), painted in the state's colour with the state's caption, under "CONTROLS" 30 below the panel's top |
| MusicMenu.Menu.constructor | music_visualizer_1-0/src/menu.rs:50-67 | not playing, no press seen, exactly one button, found by the tag "play_button"; a fresh library with nothing selected |
| MusicMenu.Menu.Update | music_visualizer_1-0/src/menu.rs:78-96 | the loop handles at most the first button under the mouse; the result is `Toggled`; the press is remembered |
| MusicMenu.Menu.GetButton | music_visualizer_1-0/src/menu.rs:163-165 | a button with the tag is returned exactly when one exists |
| MusicMenu.Menu.IsPlaying | music_visualizer_1-0/src/menu.rs:216-218 | the playing flag |
| MusicMenu.Menu.ShowsPlaybackControls | music_visualizer_1-0/src/menu.rs:115-119 | the playback controls show exactly when a song is selected |
| MusicMenu.Menu.SongLabelPositions | music_visualizer_1-0/src/menu.rs:146-155 | one label per song, all at the menu's x, each at least 100 below the previous one |
| MusicController.LayoutTiles | music_visualizer_1-0/src/controller.rs:41-109 | the menu is 200 wide against the window's right edge; the view fills the rest from the left edge; they meet at the divider's x; both span the window's height at its centre y |
| MusicController.Controller.constructor | music_visualizer_1-0/src/controller.rs:40-62 | the view and the menu get their rectangles, not playing; the song is the empty song |
| MusicController.Controller.Update | music_visualizer_1-0/src/controller.rs:73-77 | menu, then song, then view; afterwards view, song and menu agree on whether playback is on |
| MusicController.ClickThenHold | music_visualizer_1-0/src/controller.rs:73-77 | a click on the play button followed by a held press starts playback once and keeps it |
| PlaylistTrack.NewTrack | music_visualizer/src/model/song.rs:9-16 | the track stores its arguments unchanged |
| PlaylistModel.AddedInTurnAppends | music_visualizer/src/controller/playlist.rs:14-16 | after n additions the tracks are the old ones followed by those songs, in call order, so the count never drops |
| PlaylistModel.Playlist.constructor | music_visualizer/src/model/playlist.rs:9-14 | stores the name; no tracks |
| PlaylistModel.Playlist.AddSong | music_visualizer/src/model/playlist.rs:16-18 | one song appended at the end; earlier tracks and the name unchanged |
| PlaylistController.PlaylistController.constructor | music_visualizer/src/controller/playlist.rs:8-12 | wraps a new playlist with the name and no tracks |
| PlaylistController.PlaylistController.AddSong | music_visualizer/src/controller/playlist.rs:14-16 | exactly one append, through the playlist |
| Square.Step | egui-macroquad-ex/src/main.rs:40-59 | after an update the square lies on the screen; size, colour and speed never change |
| Square.StartFacts | egui-macroquad-ex/src/main.rs:28-35 | starts at (300, 300), within the slider ranges and on the screen |
| Square.OppositeKeysCancel | egui-macroquad-ex/src/main.rs:41-52 | opposite keys held together cancel |
| Square.SingleKeyMovesBySpeed | egui-macroquad-ex/src/main.rs:41-52 | away from the edges, one held key moves the square by exactly its speed |
| Square.IdleStays | egui-macroquad-ex/src/main.rs:40-59 | with no key held, a square on the screen stays put |
| Square.SliderRangeSuffices | egui-macroquad-ex/src/main.rs:55-93 | the size slider's range 10..=100 keeps the clamp bounds 600 - size non-negative |
| Square.Square.constructor | egui-macroquad-ex/src/main.rs:28-35 | (300, 300), size 50, red, speed 5 |
| Square.Square.Update | egui-macroquad-ex/src/main.rs:40-59 | the four key moves in order, then the clamp; the new state is `Step` of the old one |

## Left out

- Rendering is not modelled: painter calls, widget layout, fonts, and the menu, board and background drawing. Where a `draw` decides something (stamps, captions, clicks, colours), that decision is modelled and the drawing call is not.
- The `main.rs` files and the frame loops are not modelled. Each model's `Update` is one frame.
- Keyboard, mouse and clicks become boolean parameters. The screen size, which the source reads from the egui context, becomes a parameter.
- f32 arithmetic is not modelled: Pong uses integers (every constant is whole) and the other demos use exact reals. So there is no rounding in `distance`, `ceil` or `lerp`, nor in the todo layout.
- PaintScreen.Screen.Draw: the number of interpolation steps, `ceil(distance / (size · 0.3))`, is a parameter. When it is 0 (a connected stroke at the previous position), the source divides 0 by 0 and draws at a NaN position; the model takes t = 0 there.
- The paint settings window is not modelled. Its outputs (size, colour, Clear click) are the `Settings` input of a frame.
- The pong board divider and its no-op update are not modelled; the divider's geometry is in `PongConstants.BoardGeometry`.
- The ball's and paddles' colours are cosmetic and are not modelled.
- Colour statics, the egui-example `key_coords`, `helper_functions` and `constants` files are folded into constants and functions here. The commented-out `Rectangle` in egui-example/src/assets/egui_utils.rs is not modelled.
- Scene objects are values of any type, updated and drawn by functions that stand for each object's own `update` and `draw`. Dynamic dispatch over boxed trait objects is not modelled, and an object is replaced by its new value rather than changed through a reference, so aliasing between objects is not captured.
- TodoController.Controller.DisplayAddOption: the text field's editing is modelled as the typed text replacing the pending text. The field's on-screen placement is not modelled.
- TodoController.IsWhitespace: `str::trim` strips Unicode White_Space; the model lists those code points explicitly.
- MusicSong.Upper: `char::to_uppercase` is modelled for ASCII letters only. Non-ASCII case mapping, which can change the length, is not modelled.
- The audio device is not modelled: the cpal host, device and configuration lookups, their panics, and the sample-format match. Whether building the output stream succeeds is the `streamBuilt` parameter, and a stream is an object holding the samples and its own frame counter.
- `load_wav` (WAV decoding and normalisation) is not modelled. The loaded samples, or a failure, are passed to `Song.FromFile`.
- The library folder scan is not modelled. The file names it would yield are a parameter of the library and menu constructors.
- The mutex around the audio samples is not modelled. Only one callback is modelled, so nothing shares the samples.
- nannou's and egui's `Rect` types are not part of this model. `NannouRect` and `EguiUtils.Rect` model only what these demos use: centre/size rectangles with inclusive containment, and `from_two_pos`.
- Square: the control panel (`UIManager`, the `Arc<Mutex<Square>>` shared with the game loop) is not modelled. Its sliders and colour buttons only set fields, and `InSliderRange` records the slider ranges. macroquad's colours are the enum `Palette`.
- The other music visualizer (rodio song wrapper, audio controller, simple menu, egui views) is not modelled, except its playlist and track record.
