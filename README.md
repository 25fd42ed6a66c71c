# SegnoVivo sign-language pipeline: a verified Dafny model

SegnoVivo puts American Sign Language (ASL) captions and a skeletal avatar
next to a video. Three stages are modelled here.

- **Captions and avatar side.**
  - The English-to-gloss translator.
  - The avatar generator, which turns a gloss into frames of hand landmarks. A word the pose table knows gets a movement; any other word is fingerspelled.
  - The Flask back end's segment mapping, its gloss checks, its pose-data validation report, and its CSV and MediaPipe exports.
  - The dataset loader, which keys WLASL and ASL-LEX signs by their upper-case gloss.
  - The browser frame loop `DatasetAvatarRenderer`.
- **Data collection.**
  - The two sequence collectors: record with 'r', save with 'e', quit with 'q'. One of them also keeps `label_map.npy`.
  - The label-map checker.
  - The pose-database export, which keeps the richest sample per gloss.
- **Recognition.**
  - The live predictor: a 30-row sliding window, a prediction every tenth frame, and a 0.1 confidence threshold.
  - The prediction server: it pads or truncates the input and falls back to a default label.

There is one Dafny module per source file:

| file | module | source |
|---|---|---|
| `avatar_renderer.dfy` | `AvatarRenderer` | `Captions/sign-avatar-extension/avatar_renderer.js` |
| `avatar_generator.dfy` | `AvatarGenerator` | `Captions/avatar_generator.py` |
| `backend.dfy` | `Backend` | `Old_Codes/app.py` |
| `gloss_translator.dfy` | `GlossTranslator` | `Captions/aslgpc12_translator.py` |
| `pose_database.dfy` | `PoseDatabase` | `Captions/pose_database.py` |
| `export_pose_database.dfy` | `ExportPoseDatabase` | `Predictor/export_pose_database.py` |
| `connection.dfy` | `Connection` | `Predictor/connection.py` |
| `live_predict.dfy` | `LivePredict` | `Predictor/live_predict.py` |
| `labelled_collector.dfy` | `LabelledCollector` | `Predictor/collecting_sign_data.py` |
| `sequence_collector.dfy` | `SequenceCollector` | `collecting_sign_data.py` |
| `label_map_check.dfy` | `LabelMapCheck` | `check_label_map.py` |
| `landmarks.dfy` | `Landmarks` | the landmark flattening shared by the capture scripts |
| `text.dfy`, `wrappers.dfy` | `Text`, `Wrappers` | Python string operations (`split()`, `" ".join`, `strip()`, `upper()`, `lower()`, `endswith`, `str(n)`) and `Option` |

Code that mutates state is modelled as classes or as methods with loops. Each is proved against a function of its inputs or of its old state, and the properties are proved about those functions. The stateful parts are:
- the renderer;
- the generator's frame builders;
- the back end's report and export loops;
- the dataset loader;
- the export's selection loop;
- the live predictor;
- the collectors;
- the checker's flag loop.

The following are parameters:
- the camera frames and the key presses;
- the neural model (`infer`);
- `float()` parsing;
- the sentence translator and splitter;
- `np.sin`, `np.cos` and `np.pi`;
- directory listings, which are sequences of parsed files in listing order.

**Where the design description and the code differ, the model follows the code.** The design description covers a caption-timeline synchroniser, an animation cache and a tiered renderer; the code contains none of these. It also describes a frame loop that never throws, never plays without data, and cancels its pending tick on pause. The actual `DatasetAvatarRenderer` does none of those three things:
- It raises a TypeError when its frame list is undefined or empty (`AvatarRenderer.DatasetAvatarRenderer.Render`, outcome `Threw`).
- `play` always starts the loop.
- `stop` only clears the flag. The queued callback still runs once, finds the renderer stopped, and does not reschedule.

Its constructor reads `animation.frames` and `animation.fps`, while the extension's content script passes the frame array itself. The constructor is modelled as written, so with that caller both fields are absent.

Two consequences of the code are proved outright:
- **The export never takes collector output.** The export only accepts two-column keypoint rows. The collectors write 3 × 21 coordinates plus a label per row. So the export never picks up a file the collectors wrote (`ExportPoseDatabase.CollectorOutputNotExported`).
- **A loaded label map can lose a label.** When a loaded label map's indices are not 0..n-1, registering a new label can overwrite an existing one (`LabelledCollector.AddLabelCanOverwrite`). A map the collector builds from empty keeps the indices 0..n-1 (`LabelledCollector.AddLabelKeepsIndexed`).

## Model

| member | source | states |
|---|---|---|
| AvatarRenderer.EffectiveFps | Captions/sign-avatar-extension/avatar_renderer.js:8 | The frame rate is never 0. It is the animation's fps when present and non-zero, otherwise 24. |
| AvatarRenderer.JointRadius | Captions/sign-avatar-extension/avatar_renderer.js:40-42 | A joint is drawn with its own radius when present and non-zero, otherwise 5. |
| AvatarRenderer.Circles | Captions/sign-avatar-extension/avatar_renderer.js:39-45 | A frame draws one circle per joint, in joint order, at the joint's x and y with the defaulted radius. |
| AvatarRenderer.FrameDueMeansPeriodElapsed | Captions/sign-avatar-extension/avatar_renderer.js:24-27 | The integer test on `elapsed * fps` holds exactly when `elapsed >= 1000 / fps`, for every non-zero fps including negative ones. |
| AvatarRenderer.AdvanceStep | Captions/sign-avatar-extension/avatar_renderer.js:31 | From a valid index, an advance moves to the next frame, or back to 0 after the last. |
| AvatarRenderer.AdvanceTimesWraps | Captions/sign-avatar-extension/avatar_renderer.js:31 | Up to a full cycle, k advances from index i land on (i + k) mod n, and the index stays in [0, n). |
| AvatarRenderer.FullCycleReturns | Captions/sign-avatar-extension/avatar_renderer.js:31 | After as many advances as there are frames, playback is back at the frame it started from. |
| AvatarRenderer.DatasetAvatarRenderer.constructor | Captions/sign-avatar-extension/avatar_renderer.js:2-9 | The renderer keeps `animation.frames` as given and starts at frame 0, not playing, with the defaulted fps and no callback queued. |
| AvatarRenderer.DatasetAvatarRenderer.Play | Captions/sign-avatar-extension/avatar_renderer.js:11-15 | Sets playing, records the start time and queues one more render callback. |
| AvatarRenderer.DatasetAvatarRenderer.Stop | Captions/sign-avatar-extension/avatar_renderer.js:17-19 | Clears the playing flag and nothing else, so it is idempotent and queued callbacks stay queued. |
| AvatarRenderer.DatasetAvatarRenderer.DrawFrame | Captions/sign-avatar-extension/avatar_renderer.js:38-46 | The canvas gains exactly the frame's circles, in order. |
| AvatarRenderer.DatasetAvatarRenderer.Render | Captions/sign-avatar-extension/avatar_renderer.js:21-36 | **Not playing:** consumes the callback and changes nothing else. **Period not elapsed:** changes nothing and reschedules. **Period elapsed:** clears the canvas, draws the frame at the pre-advance index, advances the index modulo the frame count, sets the last frame time to the timestamp and reschedules. A missing or empty frame list throws and stops the loop. |
| AvatarGenerator.LetterHandshape | Captions/avatar_generator.py:282-311 | Letters A–Z get their table handshape; any other character falls back to "flat_hand". |
| AvatarGenerator.SpelledFramesAt | Captions/avatar_generator.py:125-131 | Fingerspelling yields 20 frames per letter. Frame k shows letter k / 20 and is numbered k mod 20 within its block. |
| AvatarGenerator.WaveMovement | Captions/avatar_generator.py:141-166 | Fails with an index error exactly when there are no landmarks. Otherwise returns one frame per count, numbered by position; each frame carries as many shifted landmarks as the input. |
| AvatarGenerator.ForwardMovement | Captions/avatar_generator.py:168-192 | **No landmarks:** index error. **frame_count 1:** division by zero. **Otherwise:** count frames, numbered by position, on the line from the first landmark to the second. Without a second landmark, the end is the first moved by (0.1, 0.1). |
| AvatarGenerator.PointMovement | Captions/avatar_generator.py:194-215 | Index error exactly when there are no landmarks. Otherwise: count frames, numbered by position, each with handshape "index_point". |
| AvatarGenerator.CircularMovement | Captions/avatar_generator.py:217-238 | Index error exactly when there are no landmarks. Otherwise: count frames, numbered by position, each with handshape "flat_hand". |
| AvatarGenerator.MouthToHandMovement | Captions/avatar_generator.py:240-264 | **Fewer than two landmarks:** index error. **frame_count 1:** division by zero. **Otherwise:** count frames on the line from the first landmark to the second, numbered by position. |
| AvatarGenerator.StaticPose | Captions/avatar_generator.py:266-277 | Count frames, numbered by position, each carrying the input landmarks unchanged. |
| AvatarGenerator.GenerateLetterFrames | Captions/avatar_generator.py:279-328 | Count frames, numbered by position. Each carries its letter and that letter's handshape. |
| AvatarGenerator.MovementFramesNumbered | Captions/avatar_generator.py:100-111 | Whatever the movement name, a successful builder yields `frame_count` frames (none for a negative count), numbered 0, 1, 2, … |
| AvatarGenerator.UnnamedMovementIsStatic | Captions/avatar_generator.py:100-111 | A name other than the five movements never fails, and repeats the table's landmarks in every frame. |
| AvatarGenerator.HandshapeForWord | Captions/avatar_generator.py:330-344 | Looks up the upper-case word in the handshape table; a word outside it gets "flat_hand". |
| AvatarGenerator.HandshapeIgnoresCase | Captions/avatar_generator.py:344 | A word and its upper-case form get the same handshape. |
| AvatarGenerator.GenerateWordAnimation | Captions/avatar_generator.py:91-120 | The result is the pose animation of the dispatched builder. Its word is the word as given and its frame count is the table's `frames`. |
| AvatarGenerator.GenerateFingerspellingAnimation | Captions/avatar_generator.py:122-139 | The letters are the upper-cased word, and frame_count = number of frames = 20 × word length. |
| AvatarGenerator.WordAnimationDispatch | Captions/avatar_generator.py:53-66 | A word whose upper-case form is in the pose table gets a pose animation with the table's frame count. Every other word is fingerspelled with 20 frames per letter. |
| AvatarGenerator.ErrorResponse | Captions/avatar_generator.py:346-361 | The error payload is a failure response. |
| AvatarGenerator.AnimateWord | Captions/avatar_generator.py:54-66 | One word's animation: the sign-table builder when its upper-case form is in the table, otherwise fingerspelling, including the error either raises. |
| AvatarGenerator.AnimateWords | Captions/avatar_generator.py:53-66 | Succeeds exactly when every word can be animated. The sequence then holds each word's animation in order, and the frame total is the sum of their frame counts. |
| AvatarGenerator.GenerateAvatarAnimation | Captions/avatar_generator.py:46-89 | Succeeds exactly when every whitespace-separated word can be animated. The data then has one animation per word, in order, at 30 fps; total_frames is the sum of their frame counts and the duration is total_frames / 30. Otherwise the result is the error payload. |
| Backend.MapSegments | Old_Codes/app.py:65-88 | **Timed segments:** one ASL segment each, in order, with the same start, end and English text and the translated gloss. **Otherwise:** one untimed segment per sentence of the transcript. |
| Backend.GenerateAvatar | Old_Codes/app.py:105-121 | A missing or empty gloss gets 400 "ASL gloss is required". Otherwise the generator's response is returned, and it reports success exactly when every word can be animated. |
| Backend.StatusCountsAddUp | Old_Codes/app.py:230-231 | known_signs + fingerspelled_words equals the number of results. |
| Backend.ValidatePoseData | Old_Codes/app.py:185-233 | Gets 400 on a missing or empty gloss. Otherwise there is one result per word, in order: known words carry the table's frame count and movement, unknown words 20 × length. Total frames is their sum and the duration is that total / 30. The two status counts add up to the number of words. |
| Backend.ValidationMatchesGenerator | Old_Codes/app.py:198-221 | For every word the generator can animate, the report's frame count and known/unknown status agree with the generated animation. |
| Backend.ValidationTotalMatchesGenerator | Old_Codes/app.py:223 | For a gloss the generator animates, the report's total equals the generator's total_frames. |
| Backend.SequencePointsCount | Old_Codes/app.py:258-276 | The CSV export has one row per landmark of every frame of every word, so total_points counts the landmarks. |
| Backend.FramesPointsCount | Old_Codes/app.py:261-271 | Within one word, the CSV rows number the landmarks of its frames. |
| Backend.SequenceEntriesCount | Old_Codes/app.py:288-294 | The MediaPipe export has exactly one entry per frame across all words. |
| Backend.ExportFramesMatchTotal | Old_Codes/app.py:288-294 | For an animation generated from a table without negative frame counts, the MediaPipe export has exactly total_frames entries. |
| Backend.CsvRows | Old_Codes/app.py:258-271 | The three nested loops emit the rows in word, frame, landmark order, with visibility defaulting to 1.0. |
| Backend.MediaPipeRows | Old_Codes/app.py:288-294 | The two nested loops emit one (frame number, landmarks) entry per frame, in order. |
| Backend.ExportAnimation | Old_Codes/app.py:241-298 | **No stored file:** 404 "Animation not found". The format defaults to json. **json:** the stored animation. **csv:** the rows and their count. **mediapipe:** the entries at 30 fps. **Any other format:** 400 "Unsupported export format". |
| GlossTranslator.ToGloss | Captions/aslgpc12_translator.py:22-37 | The gloss is the surviving tokens' words joined by single spaces. It is empty exactly when no token survives. |
| GlossTranslator.GlossWordsAppend | Captions/aslgpc12_translator.py:26-35 | Translating two token runs in turn gives their gloss words in order, so token order is kept. |
| GlossTranslator.SkippedTokenIgnored | Captions/aslgpc12_translator.py:29-31 | A token tagged AUX, DET, ADP, CCONJ or PUNCT contributes nothing, wherever it stands. |
| GlossTranslator.GlossWordsNonEmpty | Captions/aslgpc12_translator.py:33-35 | Every emitted word is non-empty and is the mapping of some surviving token. |
| GlossTranslator.GlossWordSource | Captions/aslgpc12_translator.py:26-35 | For each gloss word it gives the index of a surviving token whose mapping is that word. |
| GlossTranslator.GlossWordsEmpty | Captions/aslgpc12_translator.py:24-37 | There are no gloss words exactly when no token survives. |
| GlossTranslator.UnmappedLemmaUppercased | Captions/aslgpc12_translator.py:33 | A lemma whose lower-case form is not in the word map is emitted in upper case, whatever its case was. |
| GlossTranslator.WordMapOverrides | Captions/aslgpc12_translator.py:7-20 | thank→THANK-YOU, name→NAME, hello (any case)→HELLO, watching→WATCH; is, a, an, the, to, for, of and be map to "". |
| GlossTranslator.MapLemmaNoSpace | Captions/aslgpc12_translator.py:27-33 | A lemma without whitespace maps to a word without whitespace. |
| GlossTranslator.GlossSplitsBack | Captions/aslgpc12_translator.py:37 | When no lemma contains whitespace, splitting the gloss on whitespace (as the generator does) gives back exactly the translator's words. |
| PoseDatabase.LastWriterWins | Captions/pose_database.py:45-58 | After storing a run of rows, a non-empty key holds the record of its last row. A key no row names keeps its earlier record. |
| PoseDatabase.NoEmptyKey | Captions/pose_database.py:46-47 | An empty gloss never becomes a key. |
| PoseDatabase.PutAllKeepsShape | Captions/pose_database.py:45-58 | Storing rows keeps every record under its own upper-case word. It keeps the key order listing each key once, and only appends to it. |
| PoseDatabase.CsvPairs | Captions/pose_database.py:45-58 | One (key, record) per CSV row. The record's word is its upper-case key and its dataset is the dataset id. |
| PoseDatabase.JsonPairs | Captions/pose_database.py:64-71 | One (key, record) per JSON entry. The record's word is its upper-case key and its dataset is the dataset id. |
| PoseDatabase.AslLexWins | Captions/pose_database.py:32-41 | With both files present, an ASL-LEX sign replaces a WLASL sign with the same upper-case gloss. A WLASL sign absent from ASL-LEX stays. |
| PoseDatabase.LoadPrefixShape | Captions/pose_database.py:32-72 | Loading datasets onto a well-formed table keeps it well formed: every record under its own word, upper-case keys only, no empty key, and each key listed once in first-seen order. Keys are only ever appended to the order. |
| PoseDatabase.DatasetLoader.constructor | Captions/pose_database.py:7-26 | The loader holds exactly the datasets loaded in declared order, and the table is well formed. loaded_datasets maps exactly the datasets whose file exists, each to True. |
| PoseDatabase.DatasetLoader.LoadAll | Captions/pose_database.py:32-41 | Loads wlasl, then asl_lex, on top of the current table, skipping missing files. The table stays well formed, and the flags of exactly the present datasets become True. |
| PoseDatabase.LoadedFlagsMeaning | Captions/pose_database.py:32-41 | After load_all a flag exists exactly for the old flags and the datasets whose file exists. A present dataset's flag is True, and every other flag keeps its value. |
| PoseDatabase.DatasetLoader.LoadCsvDataset | Captions/pose_database.py:43-59 | The table becomes the old table with the rows stored in order and stays well formed. The dataset is marked loaded. |
| PoseDatabase.DatasetLoader.LoadJsonDataset | Captions/pose_database.py:61-72 | The table becomes the old table with the entries stored in order and stays well formed. The dataset is marked loaded. |
| PoseDatabase.DatasetLoader.GetSignData | Captions/pose_database.py:74-75 | Returns the record stored under the upper-case word, or None when there is none. |
| PoseDatabase.DatasetLoader.GetAvailableSigns | Captions/pose_database.py:77-78 | Lists exactly the stored keys, each once. |
| PoseDatabase.GetSignDataIgnoresCase | Captions/pose_database.py:74-75 | A word and its upper-case form find the same record. |
| PoseDatabase.AvailableSignsAreLookups | Captions/pose_database.py:74-78 | Every listed sign is found by lookup as a record of that word, and a word is found exactly when its upper-case form is listed. |
| ExportPoseDatabase.CollectorFileStem | Predictor/export_pose_database.py:26 | The extension-less name of a file the collectors save is "<label>_<n>". |
| ExportPoseDatabase.GlossMapIsPrefix | Predictor/export_pose_database.py:14-27 | Every stem in the rename table is renamed to its own text before the first "_", the same gloss the fallback gives. |
| ExportPoseDatabase.CollectorFileGloss | Predictor/export_pose_database.py:25-27 | A collector file saved under a label without "_" is exported under that label. |
| ExportPoseDatabase.ParseKeypointsSpec | Predictor/export_pose_database.py:42-46 | A file parses exactly when every row has two fields and its non-blank fields parse; it then yields one keypoint per row with two non-blank fields. |
| ExportPoseDatabase.Candidate | Predictor/export_pose_database.py:34-52 | A file contributes only if its name ends in ".csv" and it has at least 21 keypoints. |
| ExportPoseDatabase.CollectorOutputNotExported | Predictor/export_pose_database.py:43 | A file written by the sequence collectors is never a candidate. |
| ExportPoseDatabase.Offers | Predictor/export_pose_database.py:33-52 | There is at most one offer per listed file, and every offer has at least 21 keypoints. |
| ExportPoseDatabase.SelectBestMembership | Predictor/export_pose_database.py:54-55 | A gloss is kept exactly when some accepted file carries it. |
| ExportPoseDatabase.SelectBestIsFirstMaximum | Predictor/export_pose_database.py:54-55 | Per gloss, the kept sample is that of the file with the most keypoints. Among equals the earliest listed stays, because the comparison is strict. |
| ExportPoseDatabase.SelectBestOrder | Predictor/export_pose_database.py:54-55 | The kept glosses appear once each, in first-seen order. |
| ExportPoseDatabase.FormatKeys | Predictor/export_pose_database.py:59-62 | Every output key is an upper-cased gloss holding one right-hand sample. When glosses differ only in case, the last in order wins. |
| ExportPoseDatabase.NextOffer | Predictor/export_pose_database.py:33-56 | One more listed file updates the selection by exactly its offer, or leaves it unchanged. |
| ExportPoseDatabase.ConsiderFile | Predictor/export_pose_database.py:34-56 | One listed file leaves the best samples unchanged unless it is a parseable .csv with at least 21 keypoints. Such a file is offered for its gloss and replaces the stored sample only when it has strictly more points. |
| ExportPoseDatabase.ExportPoseDatabase | Predictor/export_pose_database.py:30-62 | The output is the upper-case formatting of the best sample per gloss over all candidate files in listing order. |
| Connection.ShapeSequence | Predictor/connection.py:20-25 | When max_sequence_length > 0: fails only on an empty input, and otherwise gives exactly max_sequence_length rows. A short input is kept and padded at the end with zero rows as wide as its first row; a long one keeps its last rows in order. When max_sequence_length is 0 every row is kept, since the slice starts at -0. |
| Connection.ShapeIdempotent | Predictor/connection.py:21-25 | Shaping an already shaped sequence changes nothing. |
| Connection.ShapeKeepsRecentRows | Predictor/connection.py:25 | Rows in front of the last max_sequence_length never influence the prediction. |
| Connection.ArgMax | Predictor/connection.py:29 | The index of the largest score; the first such index. |
| Connection.Predict | Predictor/connection.py:17-33 | Fails exactly on an empty sequence when max_sequence_length > 0, or on an empty score vector. Otherwise the confidence is the score at the first maximal index, as `np.argmax` picks it. The gesture is that index's label, or "Unknown" when the map has no entry for it. |
| Connection.OnPrediction | Predictor/connection.py:39-44 | The relayed payload carries the given gesture and confidence, with "None" and 0.0 for missing fields. |
| Landmarks.FlatRow | collecting_sign_data.py:29-31 | A hand becomes 3 values per landmark: x, y and z of each landmark in turn. |
| Landmarks.FlatRows | collecting_sign_data.py:26-31 | One flattened row per detected hand, in detection order. |
| Landmarks.Flatten | Predictor/live_predict.py:57-59 | The flattening loop computes exactly the x, y, z row of the hand. |
| LivePredict.WindowIsRecentSuffix | Predictor/live_predict.py:60-62 | The buffer is the most recent rows in arrival order, never more than 30. |
| LivePredict.WindowAppend | Predictor/live_predict.py:60-62 | Appending a row and popping the oldest when over 30 keeps the buffer equal to the last 30 rows of the history. |
| LivePredict.LivePredictor.constructor | Predictor/live_predict.py:35-41 | Starts with an empty buffer and frame count 0, the prediction "None" at confidence 0.0, and nothing sent. |
| LivePredict.LivePredictor.PushRow | Predictor/live_predict.py:60-62 | Appending a row, then dropping the oldest when over 30, keeps the buffer equal to the last 30 rows of the history. |
| LivePredict.LivePredictor.AddHands | Predictor/live_predict.py:54-62 | Each detected hand's row joins the history, and the buffer stays the window of the history. |
| LivePredict.LivePredictor.Step | Predictor/live_predict.py:54-83 | frame_count increases by one. A prediction runs only on every tenth frame with at least 15 buffered rows, on the shaped buffer. The gesture changes and is sent only when the confidence exceeds 0.1; it is the mapped label or "Unknown-<index>". |
| LivePredict.LivePredictor.Run | Predictor/live_predict.py:45-92 | Frames are processed in order until the camera runs out, 'q' follows a frame, or the model fails. Each processed frame adds one to frame_count, and the history grows by the processed frames' rows in order. The run crashed exactly when the last processed frame was a prediction frame whose model call returned no scores. Payloads are only appended, at most one per frame, each above 0.1. |
| SequenceCollector.LabelledRow | collecting_sign_data.py:59 | A saved row is the frame's coordinates followed by the label. |
| SequenceCollector.LabelledRows | collecting_sign_data.py:58-59 | One saved row per recorded frame. |
| SequenceCollector.SavedRowsRoundTrip | collecting_sign_data.py:56-59 | Reading a saved file's rows back gives exactly the recorded frames, each followed by the label. |
| SequenceCollector.RecordStartsFresh | collecting_sign_data.py:42-45 | 'r' starts a fresh, empty recording and writes nothing. |
| SequenceCollector.FramesKeptOnlyWhileRecording | collecting_sign_data.py:26-33 | Without a command key, a frame's hands are appended exactly when recording, and nothing else changes. |
| SequenceCollector.StopIgnoredWhenIdle | collecting_sign_data.py:47 | 'e' while not recording changes nothing. |
| SequenceCollector.StopSavesRecording | collecting_sign_data.py:47-62 | 'e' while recording stops and clears the recording. It saves the recorded frames under "<label>_<entries>.csv" and keeps every other file. |
| SequenceCollector.WriteRows | collecting_sign_data.py:56-59 | The writing loop produces exactly the labelled rows. |
| SequenceCollector.SequenceCollector.constructor | collecting_sign_data.py:10-14 | Starts idle with an empty sequence over the directory's existing files. |
| SequenceCollector.SequenceCollector.Step | collecting_sign_data.py:26-69 | One pass of the loop changes the state exactly as the transition function does: hands first, then the key. |
| LabelledCollector.LoadLabelMap | Predictor/collecting_sign_data.py:17-27 | A missing or unreadable file gives the empty map; a readable one gives its contents. |
| LabelledCollector.Assign | Predictor/collecting_sign_data.py:86 | `label_map[index] = name`: an item with that index takes the name in place and every other item is unchanged. A new index is appended at the end, and the map then has one more item. |
| LabelledCollector.AssignKeepsUnique | Predictor/collecting_sign_data.py:86 | A map with distinct indices keeps them distinct after an assignment, as a dictionary does. |
| LabelledCollector.AddLabelKeepsIndexed | Predictor/collecting_sign_data.py:77-87 | A map with indices 0..n-1 and distinct names keeps that shape. An existing label leaves it unchanged; a new one is appended under index n. |
| LabelledCollector.AddLabelRegisters | Predictor/collecting_sign_data.py:84-86 | After a save the label is in the map, whatever the map looked like. |
| LabelledCollector.AddLabelCanOverwrite | Predictor/collecting_sign_data.py:85-86 | On the loaded map {1: "A"}, saving "B" gives {1: "B"}: the next index was taken and "A" is lost. |
| LabelledCollector.LabelExists | Predictor/collecting_sign_data.py:77-81 | The scan finds the label exactly when some item names it. |
| LabelledCollector.LabelledCollector.constructor | Predictor/collecting_sign_data.py:11-27 | Starts an idle sequence collector and the loaded, or empty, label map. |
| LabelledCollector.LabelledCollector.Step | Predictor/collecting_sign_data.py:55-92 | The recording state changes as in the plain collector. After a save the label is registered, and the map file is rewritten only when the label was new. |
| LabelledCollector.LabelledCollector.Finish | Predictor/collecting_sign_data.py:104-106 | At exit the map is saved once more exactly when it is not empty. |
| LabelMapCheck.AllOkMeansEveryItem | check_label_map.py:27-31 | The accumulated verdict is exactly "every key is an integer (bool included) and no value is a float". |
| LabelMapCheck.OneBadItemSpoils | check_label_map.py:28-30 | One bad item anywhere makes the whole map invalid. |
| LabelMapCheck.AllOkAppend | check_label_map.py:27-31 | The verdict on two runs of items is the conjunction of their verdicts, so the empty map is valid. |
| LabelMapCheck.ValidMap | check_label_map.py:27-31 | The flag loop ends true exactly when every item is fine. |
| LabelMapCheck.CheckLabelMap | check_label_map.py:4-40 | A missing file stops before any load and a failed load is reported. Otherwise the verdict is whether every item is fine. |

## Left out

- Camera capture, MediaPipe detection, OpenCV drawing, `imshow` and `waitKey`: detected landmarks and key presses are inputs.
- Model inference: TensorFlow's `model.predict` is the parameter `infer`, and `model.input_shape[1]` is a natural number. A `None` input length is not modelled.
- The float arithmetic of `np.argmax` is not modelled; scores are exact reals, so NaN is absent.
- Floating point generally: coordinates, `frame / 30.0`, durations and trigonometry are exact reals. `np.sin`, `np.cos` and `np.pi` are parameters. The renderer's clock is in integer milliseconds, and the fps is an integer.
- The canvas is a list of circles. Fill style, `beginPath`, a negative radius (which makes `arc` throw) and `requestAnimationFrame` timing are not modelled; queued callbacks are a counter.
- A frame whose joints are not arrays is not modelled, and neither is the TypeError it would raise.
- Flask routing, JSON parsing of request bodies, file writes, `uuid`, `time.time()` and the 500 replies for other exceptions are not modelled. The `/transcribe` download and Whisper transcription are left out; the segments and transcript are inputs.
- Old_Codes/app.py calls `translate_sentence` and `sent_tokenize`; both are function parameters. `Captions/aslgpc12_translator.py` defines only `to_gloss`.
- The unused `method` argument of `generate_avatar_animation` is left out. The `/get-pose-database` and `/health` routes are left out.
- The spaCy parser is not part of this model: its output, one (lemma, part of speech) pair per token, is the translator's input.
- `ASL_POSES` and `ASL_HANDSHAPES` are not defined in the pose database module. The pose table is a parameter map.
- The socket.io connection, `emit_prediction` (never called) and `send_prediction` are recorded as the `sent` list. Printing is left out.
- `time.sleep` is left out.
- Case mapping is ASCII-only. Python's Unicode `upper()`/`lower()` can change a string's length (e.g. "ß" becomes "SS"). There `len(word) * 20` and the generator's fingerspelling count could differ. `AvatarGenerator.GenerateFingerspellingAnimation` assumes the length is kept.
- `float()` is the parameter `parseFloat`. A ragged numpy array is not modelled: the width of the zero padding is taken from the first row.
- Path handling: a label containing a path separator or a "." is not modelled specially. Directory listings are a sequence in listing order; file contents are parsed rows; file read errors other than parse failures are not modelled.
- PoseDatabase.DatasetLoader.constructor: requires each present file to parse in its declared format. pandas and `json.load` raising on an unreadable file, or on NaN cells, are not modelled.
- PoseDatabase.DatasetLoader.LoadAll: has the same requirement as the constructor.
- `ensure_data_directory` is left out.
- A dictionary whose key order the code uses is a map plus its key order as a sequence: the loader's `pose_data` and the export's `best_samples`. The export's output dictionary (`ExportPoseDatabase.Format`) is a plain map, so the key order `json.dump` writes is not modelled.
- The label map is a sequence of items in insertion order. Distinct indices are stated by `LabelledCollector.UniqueIndices`, and `Assign` keeps them, but a loaded map is not required to have them.
- LivePredict.LivePredictor.Run: states that payloads are only appended, at most one per frame and each above 0.1, but not which payload each frame sent. `LivePredict.LivePredictor.Step` states that exactly, frame by frame.
- AvatarGenerator.ErrorResponse: states only that the payload is a failure. Its constant fields are the definition itself.
- Exceptions inside the generator other than an index past the end of a landmark list and a division by zero are not modelled. That includes a missing dictionary key in a malformed pose-table entry.
