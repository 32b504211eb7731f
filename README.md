# Spotify data chatbot — a Dafny model

The system is a chat assistant over a table of Spotify songs. It has three parts.

- **`SpotifyDataAnalyzer`** loads the table and cleans it: it drops rows with a missing value, then duplicate rows. It picks the audio features present among eight fixed names. When the table has a `popularity` column and at least one such feature, it bins popularity into three equal-width categories (`Low`, `Medium`, `High`) and trains a classifier on the features. It answers four queries: a summary, a popularity analysis with the five features most correlated with popularity, a correlation heatmap, and a single-feature analysis. It also predicts a song's category from partly given feature values; a missing value is replaced by the column mean.
- **`LMChatBot`** sends a user message to a local language-model server. The request carries a fixed system prompt, the last four history entries and the tool catalog. The reply is read as a structured tool call, as a call embedded in the text (from the first `{` to the last `}`), or as plain text. The conversation history grows by a fixed rule on each path.
- **The Streamlit app** dispatches a tool call to an analyzer operation, runs the quick-analysis buttons, handles one chat turn, and clears both histories on reset.

The model is split into modules:

- `Basics`: `Option`, and `Attempt`, which stands for "returns a value or lets an exception escape".
- `Strings`: the Python string operations used — `in`, `find`, `rfind`, slicing, `lower`, `str(int)`, `join`.
- `JsonValue`: decoded JSON values and their Python truthiness.
- `DataAnalyzer`: the table, the analyzer class and the functions that specify it.
- `LmChatBot`: the chat client class and the pure reply resolution.
- `StreamlitApp`: the dispatcher and a `Session` class, which holds what the app keeps in its session state.

Everything the core hands to a library is a parameter:

- the classifier (`Fit`, from a feature matrix and labels to a function from a vector to a label);
- the Pearson correlation (`corr`);
- number formatting and `str.title()` (`Formatter`);
- Python's `float()` on text (`parseFloat`);
- `json.loads` (`loads`, total, with a `Malformed` outcome);
- the HTTP POST (`post`, from the request to a `Response`);
- `str()` of a decoded value (`show`).

The code behaves as follows in cases that are easy to misread:

- The user's turn enters the history only when a readable 200 reply arrives, not unconditionally. Transport errors, non-200 statuses and unreadable bodies leave the history unchanged.
- An exception from training (an empty or non-numeric popularity column, or a non-numeric feature) escapes and the analyzer is not created. It is not degraded to "model unavailable".
- The top-5 ranking is ascending by strength and holds the strongest features. The order among equal strengths is not stated, because the sort is not stable.
- With a `popularity` column but no audio feature, `analyze_popularity` raises, because the bar chart has no data to plot.
- A feature whose correlation with popularity is undefined (a constant column) scores NaN. `sort_values` puts NaN after every number, so such a feature ranks among the strongest.
- Training assigns `pop_category` even when the data file already has that column. Rows that differed only in that column then become equal, so an analyzer's table can hold duplicate rows.

## Model

| member | source | states |
|---|---|---|
| `DataAnalyzer.DropMissing` | data_analyzer.py:18 | the survivors are exactly the rows without a missing value, and no more rows than before |
| `DataAnalyzer.DropDuplicates` | data_analyzer.py:19 | the survivors are exactly the distinct rows of the input, pairwise different |
| `DataAnalyzer.CleanKeepsFirstCompleteOccurrences` | data_analyzer.py:18-19 | cleaning keeps exactly the first occurrence of every complete row, in the original relative order (against an independent reference definition) |
| `DataAnalyzer.CleanedRows` | data_analyzer.py:18-19 | after cleaning no row has a missing value, no two rows are equal, each survivor is an original complete row, and all keep the table's width |
| `DataAnalyzer.Clean` | data_analyzer.py:18-19 | the cleaned table keeps the columns; a row survives iff it is an original row without a missing value; the survivors are pairwise different and keep the table's width |
| `DataAnalyzer.Present` | data_analyzer.py:24 | the filter keeps exactly the candidates among the columns, without repeats, in candidate order |
| `DataAnalyzer.FeatureSelection` | data_analyzer.py:22-24 | the feature list is exactly the eight candidates present among the columns, in declaration order, without repeats |
| `DataAnalyzer.PresentIgnoresOtherColumn` | data_analyzer.py:22-24 | appending a column that is not a candidate (such as `pop_category`) leaves the feature list unchanged |
| `DataAnalyzer.WithColumn` | data_analyzer.py:30-32 | assigning a column overwrites it in place if it exists, otherwise appends it as the last column; the row count is unchanged and each row only gains or changes that one cell |
| `DataAnalyzer.WithColumnKeepsOtherColumns` | data_analyzer.py:30-32 | every other column keeps its position and its cells, stays numeric exactly when it was, and yields the same numbers |
| `DataAnalyzer.BinEdges` | data_analyzer.py:30-32 | three bins of equal width spanning [min, max] |
| `DataAnalyzer.Categorize` | data_analyzer.py:30-32 | the minimum is Low and, when max > min, the maximum is High; Low iff at most the first inner edge, High iff above the second (right-closed bins); all values equal gives Medium |
| `DataAnalyzer.CategorizeMonotone` | data_analyzer.py:30-32 | the label is monotone in popularity (Low < Medium < High) |
| `DataAnalyzer.Categories` | data_analyzer.py:30-32 | one label per row, each the bin of that row's popularity over the column's min and max |
| `DataAnalyzer.CategoriesOrdered` | data_analyzer.py:30-32 | labels are ordered like popularity values; a minimum is Low and a maximum is High when the values differ |
| `DataAnalyzer.LabelCells` | data_analyzer.py:30-32 | the new column holds each row's label name, one per row |
| `DataAnalyzer.Numbers` | data_analyzer.py:34 | `df[c]` of a numeric column: one number per row, in row order, each the number in that row's cell of the column |
| `DataAnalyzer.FeatureMatrix` | data_analyzer.py:34 | the training matrix has one row per table row and one entry per feature; entry [i][k] is row i's number in feature k |
| `DataAnalyzer.CategoryColumnKeepsTable` | data_analyzer.py:28-35 | adding `pop_category` keeps the table clean and rectangular; when the column is new, it also keeps the rows pairwise different; it keeps the feature list and the popularity numbers, and keeps the feature columns numeric exactly when they were |
| `DataAnalyzer.Scores` | data_analyzer.py:67 | one score per feature, in feature order: the absolute value of its correlation with popularity, NaN when that correlation is undefined |
| `DataAnalyzer.Insert` | data_analyzer.py:68 | inserting into an ascending list keeps it ascending and adds exactly the one element |
| `DataAnalyzer.SortAscending` | data_analyzer.py:68 | the result is ascending by strength and a permutation of the input |
| `DataAnalyzer.SplitOfAscending` | data_analyzer.py:68 | in an ascending list every element before a split point is at most every element after it |
| `DataAnalyzer.TopFive` | data_analyzer.py:68 | min(5, n) scores taken from the input, ascending with NaN last, none weaker than any score left out |
| `DataAnalyzer.AbsStat` | data_analyzer.py:67 | `abs()` keeps NaN as NaN and maps a number to its magnitude |
| `DataAnalyzer.AtMostTotalOrder` | data_analyzer.py:68 | the sort order (numbers ascending, NaN last) is reflexive, total and transitive, and NaN is at most only NaN |
| `DataAnalyzer.UndefinedScoresRankStrongest` | data_analyzer.py:67-68 | when a NaN score is left out of the top five, every kept score is NaN |
| `DataAnalyzer.MinOf` | data_analyzer.py:113-114 | the minimum is an element of the column and at most every element |
| `DataAnalyzer.MaxOf` | data_analyzer.py:113-114 | the maximum is an element of the column and at least every element |
| `DataAnalyzer.Lowest` | data_analyzer.py:113-114 | `describe()['min']`: NaN exactly without values, otherwise a value of the column at most every value |
| `DataAnalyzer.Highest` | data_analyzer.py:113-114 | `describe()['max']`: NaN exactly without values, otherwise a value of the column at least every value |
| `DataAnalyzer.Mean` | data_analyzer.py:49-50 | `mean()`: NaN exactly without values, otherwise a number between the least and the greatest value |
| `DataAnalyzer.InputVector` | data_analyzer.py:131-149 | the prediction vector has one entry per feature, in feature order: the supplied number, otherwise the column mean |
| `DataAnalyzer.Supplied` | data_analyzer.py:134-144 | a number is used as given and a boolean as 1.0 or 0.0; a text is used iff it is not "none" in any letter case and `float()` accepts it, and then as `float()` reads it; anything else, or an absent key, gives no value |
| `DataAnalyzer.ColumnMean` | data_analyzer.py:139 | the column mean is the mean of the column's numbers and lies between their minimum and maximum |
| `DataAnalyzer.MeanBetween` | data_analyzer.py:139 | the mean of a non-empty column lies between its minimum and maximum |
| `DataAnalyzer.ImputationRule` | data_analyzer.py:133-147 | entry k is the column mean when the value is absent, `None`, the text "none" in any letter case, unparseable text, or a list or mapping; otherwise it is the parsed number (a boolean counts as 1.0 or 0.0) |
| `DataAnalyzer.ImputationPerFeature` | data_analyzer.py:133-147 | two inputs that agree on one feature give the same entry for it, whatever the other features hold |
| `DataAnalyzer.SpotifyDataAnalyzer.Read` | data_analyzer.py:12 | the analyzer starts from the loaded table, with no features and no model |
| `DataAnalyzer.SpotifyDataAnalyzer.CleanData` | data_analyzer.py:16-24 | the table becomes the deduplicated complete rows over the same columns, and the features are the selected candidates; the model is untouched |
| `DataAnalyzer.SpotifyDataAnalyzer.PopularityCategories` | data_analyzer.py:30-32 | one label per row of the table, each the bin of that row's popularity over the column's min and max |
| `DataAnalyzer.SpotifyDataAnalyzer.TrainModel` | data_analyzer.py:26-38 | without popularity or features nothing changes and no model exists; otherwise pd.cut on an empty or non-numeric column raises, and fitting raises exactly when a feature is not numeric; on success exactly `pop_category` is added and the model is the fit of the feature matrix to the labels |
| `DataAnalyzer.SpotifyDataAnalyzer.Prediction` | data_analyzer.py:126-155 | "Model not trained." without a model; otherwise the classifier's label on the imputed vector, as "🎵 Predicted: <label> popularity"; arguments that are not a mapping raise |
| `DataAnalyzer.SpotifyDataAnalyzer.PredictSong` | data_analyzer.py:126-153 | the loop that appends one imputed value per feature yields exactly the specified prediction |
| `DataAnalyzer.SpotifyDataAnalyzer.Summarize` | data_analyzer.py:40-52 | row and column counts, the first min(5, n) features (all of them candidates present in the table), and, exactly when the popularity column exists, the mean of its numbers; a popularity column holding a non-numeric cell raises |
| `DataAnalyzer.SpotifyDataAnalyzer.GetSummary` | data_analyzer.py:40-52 | the summary text with its counts, the first five features joined by ", ", and the average-popularity line only when popularity exists |
| `DataAnalyzer.SpotifyDataAnalyzer.AnalyzePopularity` | data_analyzer.py:54-75 | "Popularity data not available." with no chart without popularity; otherwise the chart's histogram is the popularity column and its ranking is the top-five scores, ascending with NaN last, none weaker than a score left out |
| `DataAnalyzer.SpotifyDataAnalyzer.ShowCorrelations` | data_analyzer.py:77-90 | "Not enough features." with no chart below two features; otherwise the heatmap over the features, raising exactly when a feature column is not numeric |
| `DataAnalyzer.SpotifyDataAnalyzer.AnalyzeFeature` | data_analyzer.py:92-115 | "Feature '<name>' not found." with no chart when the name is not among all columns; otherwise it raises exactly when the column holds a non-numeric cell, and the chart plots popularity exactly when that column exists |
| `DataAnalyzer.ModelExistsIff` | data_analyzer.py:128-129 | a constructed analyzer has a model iff there is a popularity column and a feature; without one the prediction is exactly "Model not trained." |
| `DataAnalyzer.Open` | data_analyzer.py:11-14 | an analyzer is created exactly when training does not raise on the cleaned table; it then satisfies the class invariant, holds exactly the cleaned table (with `pop_category` set to the labels when training ran), the features selected from the loaded columns, and a model exactly when training ran, fitted to the feature matrix and the labels |
| `DataAnalyzer.TrainingLabels` | data_analyzer.py:30-35 | one training label per cleaned row, the bins of the popularity column |
| `DataAnalyzer.OverwriteCanMergeRows` | data_analyzer.py:30-32 | a duplicate-free data file that already has `pop_category` opens into a table with two equal rows |
| `Strings.Contains` | lm_chatbot.py:131 | `pat in s` holds iff the pattern occurs at some position |
| `Strings.Find` | lm_chatbot.py:134 | the first index holding the character, or -1 exactly when there is none |
| `Strings.RFind` | lm_chatbot.py:135 | the last index holding the character, or -1 exactly when there is none |
| `Strings.Slice` | lm_chatbot.py:136 | Python slicing: the sub-sequence for an in-range span, empty when the end does not pass the start |
| `Strings.AsciiLower` | data_analyzer.py:138 | `lower()` keeps the length and lower-cases each letter in place |
| `Strings.NatToDecimal` | data_analyzer.py:44-45 | `str()` of a count is a non-empty digit string, with no leading zero unless it is "0", that reads back as the count |
| `Strings.Join` | data_analyzer.py:46 | `', '.join` is empty for no items and otherwise begins with the first item and ends with the last |
| `Strings.JoinSnoc` | data_analyzer.py:46 | joining one more item appends the separator and then that item, so every item appears in order with one separator between neighbours |
| `JsonValue.Truthy` | lm_chatbot.py:144 | a value is falsy exactly when it is `None`, `False`, zero, the empty text, list or mapping |
| `JsonValue.Get` | lm_chatbot.py:144 | `d.get(key, default)`: the entry when the key is present, otherwise the default |
| `LmChatBot.ContextMessages` | lm_chatbot.py:89-96 | the system message, then the last min(4, n) history entries in order, then the user message; never more than six messages |
| `LmChatBot.ContextWindowSlides` | lm_chatbot.py:92 | once four entries are stored, each new entry pushes the oldest out of the six-message context |
| `LmChatBot.CompletionRequest` | lm_chatbot.py:98-110 | the POST goes to the server address followed by `/chat/completions`, carries the given messages and tools unchanged, the model `local-model`, 500 tokens, temperature 0.7 and a 30-second timeout |
| `LmChatBot.LMChatBot.constructor` | lm_chatbot.py:6-69 | an empty history and the five-tool catalog |
| `LmChatBot.LMChatBot.BuildMessages` | lm_chatbot.py:89-96 | the loop of appends builds exactly the specified context |
| `LmChatBot.Candidate` | lm_chatbot.py:134-136 | the scanned text is no longer than the content; when non-empty it starts with `{` and ends with `}`; it is the span from the first `{` through the last `}`, and empty when that `}` comes first |
| `LmChatBot.CandidateSpan` | lm_chatbot.py:134-136 | the scanned text runs from the first `{` through the last `}` inclusive, and is empty when the last `}` comes before the first `{` |
| `LmChatBot.CandidateEmptyWithoutClosingBrace` | lm_chatbot.py:134-136 | without any `}` the scanned text is empty |
| `LmChatBot.ArgsOf` | lm_chatbot.py:144 | `parameters` when present and truthy, else `args` when present, else the empty object |
| `LmChatBot.EmptyParametersFallThrough` | lm_chatbot.py:144 | an empty `parameters` object gives way to `args` |
| `LmChatBot.Resolve` | lm_chatbot.py:121-152 | a structured call wins and carries the first call's name and decoded arguments; only its decoding error is reported; the fallback runs only on non-empty text holding `{` and `"name":`, and yields the scanned object's name and arguments; plain text is the content unchanged |
| `LmChatBot.FallbackTakenIff` | lm_chatbot.py:131-152 | the fallback yields a call iff the scanned text decodes to an object with `name`; otherwise the content is returned unchanged and no decoding error escapes |
| `LmChatBot.EmbeddedCall` | lm_chatbot.py:131-145 | an object naming a function, embedded in text with no `{` before it and no `}` after it, is read as that call with its arguments |
| `LmChatBot.ConnectionError` | lm_chatbot.py:157-158 | the error text is the fixed prefix followed by the exception's message, which can be read back |
| `LmChatBot.StatusError` | lm_chatbot.py:154-155 | the error text is the fixed prefix followed by the status in decimal digits, which read back as that status |
| `LmChatBot.ReplyOf` | lm_chatbot.py:112-158 | the reply is a function call exactly when a readable 200 reply resolves to a call |
| `LmChatBot.HistoryAfter` | lm_chatbot.py:112-152 | the history only grows, by at most two entries; it grows exactly on a readable 200 reply, first by the user turn, and by the assistant turn exactly on the plain-text path |
| `LmChatBot.ReplyRecorded` | lm_chatbot.py:117-158 | a plain-text reply is the assistant turn the history records; a tool call records exactly the user turn; an unchanged history means the reply is a connection or status error text |
| `LmChatBot.LMChatBot.SendMessage` | lm_chatbot.py:79-158 | the request carries the context, model, limits and tools; the reply is `ReplyOf` of the server's response and the history is `HistoryAfter` of it; a transport error, a non-200 status or an unreadable body returns an error text and leaves the history unchanged; otherwise the user turn is appended, and the assistant turn only on the plain-text path |
| `StreamlitApp.Route` | streamlit_app.py:57-79 | a recognised name is exactly the name of the operation it selects |
| `StreamlitApp.RouteRoundTrip` | streamlit_app.py:57-79 | every operation's name routes back to that operation |
| `StreamlitApp.RoutesMatchCatalog` | streamlit_app.py:57-77 | the names the dispatcher recognises are exactly the tool names the chat client advertises |
| `StreamlitApp.FeatureOutput` | streamlit_app.py:69-72 | without `feature_name` the analysed feature is danceability; a text name is passed unchanged; arguments that are not a mapping raise |
| `StreamlitApp.HandleFunctionCall` | streamlit_app.py:51-79 | each of the five names runs its analyzer operation on the call's arguments (empty when absent) and passes its text and image on; any other name gives "Tool '<name>' not recognized." with no image; `get_summary` and `predict_song` carry no image |
| `StreamlitApp.MissingArgsAreEmpty` | streamlit_app.py:54 | a call without `args` behaves as one with empty arguments |
| `StreamlitApp.FeatureDefaultsToDanceability` | streamlit_app.py:70 | a feature call without a name analyses danceability, and reports it not found when the table lacks that column |
| `StreamlitApp.ManualArgs` | streamlit_app.py:83 | `{"feature_name": f}` exactly when a non-empty name is given, else empty arguments |
| `StreamlitApp.DanceabilityButton` | streamlit_app.py:127-128 | the Danceability button runs the same analysis as a feature call without a name |
| `StreamlitApp.Session.constructor` | streamlit_app.py:19-24 | no messages, no analyzer, a fresh chat client with empty history and the five-tool catalog |
| `StreamlitApp.Session.LoadData` | streamlit_app.py:29-39 | data loads exactly when the file exists and the analyzer's constructor does not raise; success installs the analyzer `Open` builds (its table, features and model) and appends the welcome message of streamlit_app.py:154-161; otherwise nothing changes |
| `StreamlitApp.Session.RunTool` | streamlit_app.py:191-209 | the dispatcher's result becomes exactly one assistant message on the page and one assistant turn in the chat history; an exception changes neither |
| `StreamlitApp.Session.ShowReply` | streamlit_app.py:185-219 | a tool call is run as by `RunTool`; a text reply becomes one assistant text message and leaves the chat history unchanged |
| `StreamlitApp.Session.ExecuteManualAnalysis` | streamlit_app.py:82-95 | the tool's output becomes exactly one assistant message on the page and one assistant turn in the chat history |
| `StreamlitApp.Session.HandleChatInput` | streamlit_app.py:173-223 | the prompt is shown first; the reply is `ReplyOf` of the server's response to the built request; a text reply adds one assistant message and leaves the history as `send_message` left it; a tool call runs the dispatcher and adds one assistant message and one assistant turn after the user turn |
| `StreamlitApp.Session.ClearChatHistory` | streamlit_app.py:135-138 | both the page's messages and the chat client's history become empty; the analyzer is kept |

## Left out

- CSV loading (`pd.read_csv`) is file I/O. The loaded table is an input, assumed to have unique column names and one cell per column. A missing file is `None`.
- The HTTP transport (`requests.post`, its timeout) and `test_connection`'s liveness probe are network I/O. The POST is a function parameter and its outcome is a `Response` value.
- Decoding the reply body (`response.json()['choices'][0]['message']`, lm_chatbot.py:113-114) is a `Body` value: a `Choice`, or `Unreadable` with the exception's message. A malformed entry inside `tool_calls` is not modelled.
- A `message` that is not a mapping (for example `null`) is not modelled. In the code it raises at `choice.get`, after the user turn is already stored, so the reply is a connection error while the history has grown by one entry; the model has no such case.
- A `null` `content` in the reply is not modelled. The text is taken to be a string, "" when absent.
- `json.loads` is an uninterpreted function from text to a value or an error message. Nothing is assumed about its grammar.
- The random-forest classifier is an opaque function from a feature vector to a label. `PredictionError`, an exception from the classifier's `predict`, is left out because the classifier is total here.
- Number formatting (`:.1f`, `:.3f`), `str.title()` and `str()` of non-text JSON values are function parameters.
- The Pearson correlation arithmetic is an input to the ranking.
- pandas widens the `pd.cut` range by 0.1% on the left. The model states only equal width, right-closed bins and the order of the labels.
- Python's `float()` grammar on text ("nan", "inf", spaces) is a function parameter.
- Lower-casing in the "none" test only covers ASCII letters.
- `DataAnalyzer.Mean`: states NaN exactly without values and the bounds by the least and greatest value, not the sum-over-count identity; the body computes the sum over the count.
- `DataAnalyzer.NumericColumn`: a column is numeric when every cell holds a number. pandas fixes a column's type when it reads the file, so a text column of a table with no rows (a header-only file, or one where every row has a missing value) stays text, while here it counts as numeric.
- `DataAnalyzer.SpotifyDataAnalyzer.Summarize`: does not raise for a text popularity column of a table with no rows, where `describe()` has no `'mean'` and the code raises KeyError at data_analyzer.py:50, because column types are judged cell by cell (see `NumericColumn`).
- `DataAnalyzer.SpotifyDataAnalyzer.GetSummary`: inherits the `Summarize` gap: no KeyError for a text popularity column of a table with no rows.
- `DataAnalyzer.SpotifyDataAnalyzer.AnalyzeFeature`: does not raise for a text column of a table with no rows, where `describe()` has no `'mean'` and the code raises KeyError at data_analyzer.py:114, for the same reason.
- Reals stand for floats: no rounding, no NaN cells, no infinities. A correlation can be NaN, and the ranking models that.
- `DataAnalyzer.SpotifyDataAnalyzer.Valid`: does not require the rows to be pairwise different, because training overwrites an existing `pop_category` column and can merge rows (`OverwriteCanMergeRows`).
- `DataAnalyzer.TopFive`: does not state the order among features of equal strength, because numpy's default sort is not stable.
- Plots, figures, `plot_to_image` and base64 encoding are rendering. A chart is a value naming the data it shows.
- The Streamlit page itself is not modelled: page setup, sidebar, chat bubbles, buttons, `st.rerun`, `st.stop`, the error banners and `session_state` as a mechanism. The chat handler's third branch, for a reply that is neither a call nor text, cannot happen because `send_message` returns only those two.
