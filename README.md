# Kontiki chat assistant: a Dafny model of its own logic

The repository is a Streamlit chat page ("RachelBot") that forwards Italian
questions to a retrieval-augmented query engine and shows the answer with
links to the source documents. Almost all of the work is done by the UI
framework and the retrieval library. The script's own logic has three
parts, and this project models and proves each of them:

- **Source links** (`source_links.dfy`, module `SourceLinks`). The script
  walks the metadata of the retrieved chunks in order. For each chunk it tests
  the file name against four fragments, in this priority: `Bar`,
  `Ricettario`, `frighi`, `generali`. A match writes one fixed link. Only
  a `generali` match ends the walk.
  - `Annotate` is the specification: a recursive function from file names to links.
  - `ShowSources` is the loop with its `break`, proved equal to `Annotate`.
  - `Classify` is the if/elif chain, proved to pick the first matching
    row of the `Rules` table.
  - `Contains` is Python's case-sensitive `in` on strings, proved equal to
    the definition "occurs at some index".
- **Prompt augmentation** (`prompt.dfy`, module `Prompt`). `Augment`
  appends the fixed instruction `". Rispondi sempre e solo in italiano"`
  to the prompt.
- **Chat history** (`chat.dfy`, module `Chat`). The session state is a
  class, `SessionState`. Its `messages` field is `None` while the history
  key is absent.
  - `InitHistory` creates an empty history only when the key is absent.
  - `HandleTurn` records the raw prompt, sends the augmented prompt to the
    engine, shows the links and records the answer.
  - `Rerun` is one run of the script.
  - `Transcript` is the reference history for a sequence of turns. `TurnsOf`
    is its inverse on alternating histories.

`wrappers.dfy` holds the `Option` type. An absent value in Python is `None`.

The query engine is a parameter, `engine: string -> QueryResponse`. Its
answer text and its metadata are inputs to the model. The metadata is an
ordered `seq<Entry>`, in the dictionary's iteration order.

After a `Bar`, `Ricettario` or `frighi` match the loop goes on, so one
answer can show several links, duplicates included; only `generali` ends it.

## Model

| member | source | states |
|---|---|---|
| SourceLinks.Contains | kt-app.py:81-87 | Python's `fragment in file_name` on strings; its meaning is characterised by `ContainsIff` |
| SourceLinks.Classify | kt-app.py:81-88 | the if/elif chain on one file name; its precedence is stated by `ClassifyFirstMatch` |
| SourceLinks.ContainsIff | kt-app.py:81-87 | the `in` test holds exactly when the fragment occurs at some index of the file name; characters are compared exactly, so matching is case-sensitive |
| SourceLinks.ClassifyFirstMatch | kt-app.py:81-88 | an entry gets the link of the first fragment, in the order Bar, Ricettario, frighi, generali, that its name contains; it gets no link exactly when it contains none of them |
| SourceLinks.Annotate | kt-app.py:79-89 | at most one link per entry, so no more links than entries; if the site link appears at all, it appears once and is the last link |
| SourceLinks.AnnotateConcat | kt-app.py:79-86 | when no entry of the first part stops the walk, annotating the concatenation gives the first part's links and then the second part's, so the order is kept and later entries still emit their links, duplicates included |
| SourceLinks.SiteLinkStopsScan | kt-app.py:87-89 | at the first entry that selects the site link, the output is the links of the earlier entries followed by the site link; no entry after it contributes, and no earlier entry wrote a site link |
| SourceLinks.NoStopNoSite | kt-app.py:79-88 | without an entry that stops the walk, the site link never appears |
| SourceLinks.LaterEntriesIgnored | kt-app.py:87-89 | once the output holds the site link, appending more entries changes nothing |
| SourceLinks.NoMatchNoLinks | kt-app.py:81-88 | entries that match no fragment are skipped without error and write no link |
| SourceLinks.LinkHasSource | kt-app.py:79-88 | every link written was selected by some entry's file name |
| SourceLinks.SourceHasLink | kt-app.py:79-89 | every entry before the stop whose name selects a link has that link written |
| SourceLinks.FileNames | kt-app.py:79-80 | one file name per metadata entry, in iteration order, each the entry's `file_name` |
| SourceLinks.ShowSources | kt-app.py:79-89 | the loop with its `break` writes exactly the links `Annotate` specifies for the entries' file names |
| SourceLinks.ExampleBarPolicy | kt-app.py:81-82 | `Bar_Policy.docx` yields exactly the bar link |
| SourceLinks.ExampleLowerCaseBar | kt-app.py:81-88 | a lower-case `bar` matches nothing, so no link is written |
| SourceLinks.ExampleRecipesThenFridges | kt-app.py:83-86 | a recipe-book entry and a fridge entry both get their links, in entry order |
| SourceLinks.ExampleGeneralStops | kt-app.py:87-89 | a `generali` entry writes the site link and a later `Bar` entry is never examined |
| Prompt.Augment | kt-app.py:66 | the query is the prompt, unchanged, as its prefix, followed by exactly the Italian instruction |
| Prompt.AugmentInjective | kt-app.py:66 | different prompts give different queries |
| Chat.Transcript | kt-app.py:64-91 | after N turns the history has 2N messages, and turn k contributes the user's prompt at 2k and the answer at 2k+1 |
| Chat.TurnsOf | kt-app.py:64-91 | an alternating history holds one turn per user and assistant pair |
| Chat.TranscriptAlternates | kt-app.py:64-91 | every transcript alternates user and assistant, starting with the user, and reading its turns back gives the turns |
| Chat.AlternatingIsTranscript | kt-app.py:64-91 | every alternating history is the transcript of the turns it records |
| Chat.TranscriptAppend | kt-app.py:64-91 | one more turn extends the transcript by that turn's user and assistant messages and leaves the earlier messages as they were |
| Chat.AppendTurnAlternates | kt-app.py:64-91 | appending a user message and then an assistant message keeps the history alternating |
| Chat.Submitted | kt-app.py:60 | a prompt counts only when present and non-empty, as Python's `if` treats `None` and `""` as false |
| Chat.SessionState.constructor | kt-app.py:51 | a new session has no history key |
| Chat.SessionState.InitHistory | kt-app.py:51-52 | the history becomes empty only when it was absent; an existing history is kept unchanged |
| Chat.SessionState.HandleTurn | kt-app.py:60-91 | the history grows by exactly two messages: the raw prompt (not the augmented query) as the user's, then the engine's answer to the augmented query as the assistant's; earlier messages are kept; alternation and transcript form are preserved; the links shown are those of the answer's metadata |
| Chat.SessionState.Rerun | kt-app.py:50-91 | one run of the script: the history is initialised when absent, and a present, non-empty prompt adds exactly one turn; otherwise the history is unchanged and no link is shown |

## Left out

- Page layout, title, logo, example questions and the replay of past messages (kt-app.py:22-48, 54-57, 62, 75-78): these are UI rendering only.
- The text and URLs of the four links (kt-app.py:82-88): a written link is modelled only by which of the four links it is.
- Reading the API key and building the language and embedding models (kt-app.py:9-13): configuration and foreign library calls.
- Loading the stored index and building the query engine (kt-app.py:16-18): foreign library calls. The engine is a total function parameter.
- Failures of the query engine (kt-app.py:68): the engine is a total function. The source appends the user's message before the query, so a raised error would leave that message without an answer. The model does not capture this.
- An entry without `file_name` (kt-app.py:80-81): Python would raise a TypeError on `"Bar" in None`. `ShowSources`, `HandleTurn` and `Rerun` require every entry to carry a file name, so this failure is not modelled. The requirement also excludes nameless entries that come after a stopping `generali` entry, which the source never reaches and so accepts.
- Dictionary iteration order (kt-app.py:79): the metadata is an explicit sequence in the order it is walked.
- The `str(...)` conversion on kt-app.py:66 and the f-string on kt-app.py:72: both are the identity on strings, so the model uses the strings directly.
- Streamlit's rerun-per-interaction and per-session storage: one `SessionState` object stands for one session. `Rerun` is one execution of the script against it.
