# IO Circle Game client: a Dafny model

This project models the client side of a browser multiplayer game in which
each player steers a circle around a world of food items. The client keeps
the set of held keys. Each animation frame it turns that set into an axis
signal, normalises the signal and moves the local player optimistically by
`BASE_SPEED · dt`, and sends that position to the server as a `move` message.
It replaces its copy of all players and food wholesale on every `stateUpdate`
snapshot. It renders the world through a camera centred on the local player,
over a background grid that scrolls with a pitch of 100. A separate nickname
dialog checks that a name is not blank, asks the server whether the trimmed
name is free, and then either shows an error or hands the trimmed name and a
palette colour to its parent.

Modules, following the program's structure:

- `Opt` (opt.dfy): an `Option` type.
- `Text` (text.dfy): JavaScript's `trim`, which both components use for the blank-name test.
- `Input` (input.dfy): the held-key set, as the class `KeySet` with `KeyDown` and `KeyUp`. Key names are lower-cased. `AxisSignal` computes the per-frame signal, step by step as the source does, and is proved against the function `Signal`.
- `Motion` (motion.dfy): `Math.hypot` of an axis signal, normalisation and the movement step `FrameStep`, with their properties.
- `Camera` (camera.dfy): the camera offset, the world-to-screen translation and the name-label anchor. It also has JavaScript's truncating remainder `JsRem` and the grid loop `GridLines`, which is proved against the predicate `IsGrid`.
- `Client` (client.dfy): the `App` component as the class `Client.App`. Its React state becomes fields, and every `socket.emit` is appended to `outbox`. The socket events and input handlers are methods. `Frame` is one call of the motion loop. `Render` is one call of the renderer. It returns the coordinates it would draw, and the predicate `Depicts` describes them.
- `Nick` (nick_modal.dfy): the nickname dialog as the class `Nick.NickModal`. Its `checkName` emits and `onJoin` calls go to `log`. The server's availability reply is a parameter. `JoinFlow` is the reference function that `CheckAndJoin` is proved against.

Outside inputs become parameters:

- a key event's `key` string;
- the animation-frame timestamp `t`;
- the viewport width and height;
- the server's payloads and its `checkName` reply;
- the random initial colour;
- `root2`, the positive square root of two.

Positions are exact reals. `Math.hypot(dx, dy)` is 0, 1 or `root2`, and the
requirement `IsRoot2(root2)` pins `root2` down.

Behaviour of the code worth knowing:

- The renderer draws every player of the last snapshot, the local player's server copy included. Only the camera offset uses the locally predicted position. So the local player's own circle is drawn where the server last put it, not always at the centre. `PlayerDrawnAtCentre` proves that it is centred only when the drawn record's position is the prediction.
- With `dt = 0` and a key held, the code still runs the step and still sends a `move`, to the unchanged position (`ZeroElapsedTime`).
- `handleJoin` in App sends the name untrimmed (`JoinKeepsSurroundingSpace`). The nickname dialog sends it trimmed (`JoinedNameIsTrimmed`).
- `dt` is not clamped and has no sign constraint. Every movement lemma holds for every real `dt`, except `StepFollowsSignal`, which needs `dt > 0`: with a negative `dt` the player moves against the held keys.

## Model

| member | source | states |
|---|---|---|
| Text.IsSpace | src/components/NickModal.jsx:15 | the characters `trim` removes, the ECMAScript white space and line terminators; no digit or Latin letter is one of them |
| Text.Trim | src/components/NickModal.jsx:15-19 | the trimmed name is a contiguous piece of the name with only white space cut off on either side; it is empty exactly when the name is all white space, and otherwise starts and ends with a non-space character |
| Text.IsBlank | src/components/NickModal.jsx:15 | `!name.trim()` holds exactly when the name is empty or white space only |
| Text.SkipLeading | src/components/NickModal.jsx:15 | the scan stops at the first non-space character, and everything it passed is white space |
| Text.SkipTrailing | src/components/NickModal.jsx:15 | the backward scan stops just after the last non-space character, and everything it passed is white space |
| Text.TrimIdempotent | src/components/NickModal.jsx:17 | trimming an already trimmed name changes nothing |
| Text.TrimKeepsBoundedString | src/components/NickModal.jsx:17 | a name with non-space characters at both ends is sent unchanged |
| Input.Lower | src/App.jsx:49-50 | lower-casing keeps the length, maps each character and leaves no capital letter |
| Input.LowerIdempotent | src/App.jsx:49-50 | lower-casing a lower-cased key name changes nothing |
| Input.LowerOfLowerCase | src/App.jsx:61-64 | a key name without capitals is its own lower-case form |
| Input.LowerIs | src/App.jsx:49 | a string that agrees character by character with the lower-cased input is its lower-case form |
| Input.MovementKeyNamesFold | src/App.jsx:49-64 | the browser names W, S, A, D and ArrowUp, ArrowDown, ArrowLeft, ArrowRight fold to the names the loop tests |
| Input.Press | src/App.jsx:49 | after a key-down the lower-cased key is held and no other key's membership changes |
| Input.Release | src/App.jsx:50 | after a key-up the lower-cased key is not held and no other key's membership changes |
| Input.PressIdempotent | src/App.jsx:49 | a repeated key-down leaves the set as the first one did |
| Input.PressReleaseCaseInsensitive | src/App.jsx:49-50 | keys differing only in case press the same entry, and a key-up in either case releases it |
| Input.KeySet.constructor | src/App.jsx:48 | the set starts empty |
| Input.KeySet.KeyDown | src/App.jsx:49 | the held set becomes Press of the old set |
| Input.KeySet.KeyUp | src/App.jsx:50 | the held set becomes Release of the old set |
| Input.Net | src/App.jsx:59-64 | the axis value lies in -1..1; it is 0 exactly when both or neither key is held, +1 exactly for the positive key alone and -1 exactly for the negative key alone |
| Input.Signal | src/App.jsx:59-64 | both axis values lie in -1..1, and the signal is zero exactly when each axis has both or neither of its keys held |
| Input.AxisSignal | src/App.jsx:59-64 | the step-by-step updates of dx and dy give Signal of the held set, with both in -1..1 |
| Input.OpposingKeysCancel | src/App.jsx:61-64 | holding both keys of an axis gives 0 on that axis |
| Input.SameDirectionsSameSignal | src/App.jsx:59-64 | a key press that leaves all four direction tests as they were leaves the signal as it was |
| Input.UpAliasCountsOnce | src/App.jsx:61 | with w held, pressing arrowup too changes nothing, and the other way round |
| Input.DownAliasCountsOnce | src/App.jsx:62 | with s held, pressing arrowdown too changes nothing, and the other way round |
| Input.LeftAliasCountsOnce | src/App.jsx:63 | with a held, pressing arrowleft too changes nothing, and the other way round |
| Input.RightAliasCountsOnce | src/App.jsx:64 | with d held, pressing arrowright too changes nothing, and the other way round |
| Input.AliasedKeysCountOnce | src/App.jsx:61-64 | on each of the four directions the letter key and its arrow key count once: with one held, pressing the other changes nothing; w together with arrowup (and no down key) gives dy = -1, the same as either alone |
| Input.OtherKeysIgnored | src/App.jsx:61-64 | a key other than the eight movement keys does not change the signal |
| Motion.Hypot | src/App.jsx:67 | the length is non-negative, its square is dx² + dy², and it is zero only for the zero signal |
| Motion.Normalise | src/App.jsx:67-69 | the normalised signal has length one, points along the signal on each axis, and is zero on an axis whose signal is zero |
| Motion.QuotientFacts | src/App.jsx:67-69 | dividing each axis by the length gives components whose squares sum to one and that multiply back to the signal |
| Motion.DiagonalComponent | src/App.jsx:67-69 | on a diagonal each component is ±1/√2, with square one half |
| Motion.Advance | src/App.jsx:70-71 | no time or a zero direction leaves the position where it was, and an axis with zero direction keeps its coordinate |
| Motion.FrameStep | src/App.jsx:66-74 | no step exactly when the signal is zero on both axes; an axis without signal keeps its coordinate |
| Motion.NoSignalNoMove | src/App.jsx:66-74 | a frame makes no move exactly when the axis signal is zero on both axes |
| Motion.OpposingKeysDoNotMove | src/App.jsx:61-66 | opposing keys alone on every axis produce no move and no message |
| Motion.HorizontalStep | src/App.jsx:66-71 | a horizontal step changes x by ±200·dt and leaves y unchanged |
| Motion.VerticalStep | src/App.jsx:66-71 | a vertical step changes y by ±200·dt and leaves x unchanged |
| Motion.ZeroElapsedTime | src/App.jsx:66-72 | with dt = 0 and a key held a move still happens, to the same position |
| Motion.StepLength | src/App.jsx:66-71 | every move, diagonal or not, has squared length (200·dt)² |
| Motion.StepFollowsSignal | src/App.jsx:66-71 | for positive dt each coordinate moves the way of its axis signal |
| Camera.ToScreen | src/App.jsx:125-133 | adding the camera offset back to a screen point gives the world point |
| Camera.Offset | src/App.jsx:103-104 | the local player's position maps to the viewport centre |
| Camera.LabelAnchor | src/App.jsx:139 | a name label is horizontally centred on its circle and radius + 8 above its centre |
| Camera.ToScreenKeepsDifferences | src/App.jsx:125-133 | the world-to-screen map is a translation: differences of positions are kept |
| Camera.ScreenRelativeToPlayer | src/App.jsx:103-125 | a point's screen position relative to the centre equals its world position relative to the player |
| Camera.CameraExample | src/App.jsx:103-125 | me (500,500) on 800×600 gives offset (100,200), and food at (150,250) is drawn at (50,50) |
| Camera.Trunc | src/App.jsx:109 | truncation towards zero lies within one of the quotient, on the zero side |
| Camera.JsRem | src/App.jsx:109 | `a % 100` lies in (-100, 100), has the sign of a, and differs from a by a whole multiple of 100 |
| Camera.FloorOfQuotient | src/App.jsx:109 | for a whole number, the real quotient by 100 rounds down to the integer quotient |
| Camera.JsRemOnIntegers | src/App.jsx:109 | on integers JsRem is Dafny's remainder of the absolute value, with the dividend's sign |
| Camera.IsGrid | src/App.jsx:109-120 | a valid grid's lines lie between -100 and the extent and strictly increase |
| Camera.GridLines | src/App.jsx:109-120 | the loop draws the lines start, start+100, … that lie below the extent, with start = -offset % 100, and stops at the first that does not |
| Camera.GridStartsNearEdge | src/App.jsx:109 | the first grid line lies in (-100, 100) |
| Camera.GridEvenlySpaced | src/App.jsx:109 | successive grid lines are exactly 100 apart |
| Camera.GridLineCount | src/App.jsx:109-120 | no more lines are drawn than fit: fewer than extent/100 + 2 |
| Camera.GridUnique | src/App.jsx:109-120 | the grid of an offset and extent is unique |
| Client.JoinRequest | src/App.jsx:39-42 | no join for a white-space-only name; otherwise a join carrying the untrimmed name and the colour |
| Client.JoinKeepsSurroundingSpace | src/App.jsx:40-41 | a name typed with a leading space is sent with it, so it differs from its trim |
| Client.App.constructor | src/App.jsx:9-17 | disconnected, not joined, empty name, no local player, empty snapshot, nothing sent |
| Client.App.OnConnect | src/App.jsx:21 | only the connected flag changes, to true |
| Client.App.OnDisconnect | src/App.jsx:30 | only the connected flag changes, to false |
| Client.App.OnJoined | src/App.jsx:22-25 | the local player becomes the server's record and joined becomes true; nothing else changes |
| Client.App.OnStateUpdate | src/App.jsx:26-29 | users and foods become the payload's, nothing else changes |
| Client.App.SetName | src/App.jsx:158 | only the name changes |
| Client.App.SetColor | src/App.jsx:165 | only the colour changes |
| Client.App.HandleJoin | src/App.jsx:39-42 | when `JoinRequest` yields no message nothing changes; otherwise that message, a join with the untrimmed name and the colour, is appended to the outbox and nothing else changes |
| Client.App.StartMotion | src/App.jsx:46-54 | once joined with a player, the loop's last timestamp is set to now; otherwise nothing changes |
| Client.App.Frame | src/App.jsx:55-74 | last becomes t, and with dt = (t - last)/1000 the local position and outbox follow FrameStep: unchanged with no message for a zero signal, otherwise the new position stored and exactly one move carrying it appended; nothing happens before joining |
| Client.Depicts | src/App.jsx:99-143 | a depicted scene has one sprite per player, labelled with the player's name, and one disc per food item, each placed relative to the viewport centre as it lies relative to the local player in the world |
| Client.App.Render | src/App.jsx:99-143 | without a local player nothing is drawn; otherwise both grids for the centred camera, one disc per food item and one labelled disc per snapshot player, in order, at world position minus offset |
| Client.PlayerDrawnAtCentre | src/App.jsx:103-133 | a player record at the predicted position is drawn at the viewport centre |
| Nick.JoinFlow | src/components/NickModal.jsx:14-21 | one press of Join issues no effect exactly for a blank name and two effects exactly for a non-blank available name; the error shown is the blank-name error, the taken error, or the previous error when the name is available |
| Nick.BlankNameRejected | src/components/NickModal.jsx:15 | a blank name shows 'Введите никнейм' and sends no checkName |
| Nick.OneCheckOfTrimmedName | src/components/NickModal.jsx:17 | any other name sends exactly one checkName, first, with the trimmed name |
| Nick.TakenNameDoesNotJoin | src/components/NickModal.jsx:18 | a false reply shows 'Имя занято, выберите другое' and never calls onJoin |
| Nick.AvailableNameJoinsOnce | src/components/NickModal.jsx:19 | a true reply calls onJoin exactly once with the trimmed name and colour and keeps the error |
| Nick.JoinedNameIsTrimmed | src/components/NickModal.jsx:17-19 | a name passed to onJoin is non-empty and has no surrounding white space |
| Nick.NickModal.constructor | src/components/NickModal.jsx:9-11 | empty name and error, colour the first palette entry, nothing sent |
| Nick.NickModal.CheckAndJoin | src/components/NickModal.jsx:14-21 | the error and the effects follow JoinFlow, name and colour are unchanged, and the colour stays in the palette |
| Nick.NickModal.EditName | src/components/NickModal.jsx:30 | the name becomes the new text and the error is cleared |
| Nick.NickModal.PickColor | src/components/NickModal.jsx:35-36 | the colour becomes the chosen palette entry, so it stays in the palette |

## Left out

- socket.io transport and connection setup (src/App.jsx:2,4): `emit` is an append to a log, server events are method calls, and replies are parameters. The `../socket` module that NickModal imports is not part of this model.
- Canvas drawing calls (fill, arc, stroke, text, fonts, colours, the background clear): `Render` returns the coordinates and the number of items it would draw.
- `requestAnimationFrame` scheduling and the React effect lifecycle. `Frame` and `Render` are one call each, on the current state. In the source, the motion effect re-runs on every change of `me`. Its earlier loops are never cancelled and keep their own stale `me` and key set. The interleaving of these loops is not modelled.
- The canvas being absent (src/App.jsx:89): `Render` assumes the canvas exists.
- Floating point: positions are exact reals, `Math.hypot` is exact, and √2 is the parameter `root2`.
- The random initial colour (src/App.jsx:12-14) is a constructor parameter.
- `alert` (src/App.jsx:40), the resize listener (src/App.jsx:92-97) and the JSX markup. The markup includes the Play button being disabled while disconnected (src/App.jsx:171), the `open` prop of the dialog (src/components/NickModal.jsx:24) and the score and size panel. The viewport size is a parameter of `Render`.
- The `metadata` export (src/App.jsx:192-195).
- Input.Lower: lower-cases only the ASCII letters A–Z, not the full Unicode mapping of `toLowerCase`. Every key name the loop tests is ASCII.
- Text.IsSpace: the Unicode space separators are those of Unicode 15, not a table that tracks later versions.
- Player and food records keep only the fields the client reads: name, colour, position, radius and score.
- Asynchrony of `checkName`. `CheckAndJoin` handles the click and the server's callback in one step. The callback uses the name and colour captured at the click.
