# Mivro backend core, modelled in Dafny

This project models the pure logic at the centre of the Mivro food-scanning
server. The model has three parts.

- **Lookup and score mapping** (`server/mapping.py`). It covers additive
  display names, NOVA group descriptions, grade colours and assessments, and
  the *primary score*. The primary score takes the Nutri-Score grade first,
  then the Eco-Score grade, and otherwise gives a null record. It also covers
  the food icon, found by first-match category lookup with a slug fallback.
- **Product record normalisation** (`server/utils.py`). The operations are:
  - additive tag filtering;
  - ingredient reshaping;
  - nutrient icons;
  - projection of a raw product record onto the product schema, with the
    `"en:"` prefix removed;
  - choice of one representative image.
- **Request gate** (`server/middleware.py`). `auth_handler` decides, before
  every route, whether a request passes or gets a 401, 404 or 500 response.
  `error_handler` turns every uncaught exception into a fixed 500 response.

Values the server handles are the JSON-like `Json.Value`. A Python dict is an
ordered sequence of key/value pairs, and lookup finds the first pair with the
key. Python exceptions raised by badly shaped data are modelled as a
`Failure(TypeError)` or `Failure(AttributeError)` result. The metadata files
the server loads at start-up are parameters: the category map, the additive
name table and the product schema. The credential validator is also a
parameter, a function from email and password to a returned dict or a raised
message.

Files:

| file | module | holds |
|---|---|---|
| `wrappers.dfy` | `Wrappers` | `Option`, `Result` |
| `json.dfy` | `Json` | `Value`, dict lookup and assignment, truthiness, iteration |
| `text.dfy` | `Text` | ASCII `lower`/`upper`/`title`, slugs, prefix and substring tests |
| `seqs.dfy` | `Seqs` | order-preserving filtering and the positions it keeps |
| `mapping.dfy` | `Mapping` | `server/mapping.py` |
| `normalize.dfy` | `Normalize` | `server/utils.py` |
| `middleware.dfy` | `Middleware` | `server/middleware.py` |
| `search.dfy` | `Search` | the `nutriscore_assessment` field the search routes add (see Findings) |

Two behaviours of the code are worth knowing before reading the model:

- **Prefix removal.** `clean_value` removes only the exact prefix `"en:"`,
  once per string, and only inside strings and lists, not inside dict
  values. So cleaning is not idempotent: `Normalize.CleanValueIdempotentIff`
  shows that a second cleaning still changes a value exactly when some string
  in it starts `"en:en:"`.
- **Null colours.** `grade_color` falls back to `"gray"`, while the null
  primary score uses `"#757575"`.

## Model

| member | source | states |
|---|---|---|
| Mapping.AdditiveName | server/mapping.py:2-3 | one name per tag, same length and order: the table's name for a known tag, "Unknown" for any other |
| Mapping.AdditiveNameUnknownExactly | server/mapping.py:2-3 | when no additive is itself named "Unknown", an entry is "Unknown" exactly when its tag is missing from the table |
| Mapping.AdditiveNameAppend | server/mapping.py:2-3 | naming a concatenation of tag lists concatenates the names: each tag is named independently of the others |
| Mapping.NovaName | server/mapping.py:7-14 | a list or dict argument raises TypeError, since `dict.get` needs a hashable key; otherwise the result is one of the four fixed descriptions or "Unknown"; it is a description exactly when the value equals 1-4 as a dict key (whole numbers, and `True` as 1); strings such as "" or "4" are "Unknown" |
| Mapping.NovaNameRoundTrip | server/mapping.py:7-14 | whenever the lookup succeeds, a description identifies its group: mapping it back gives the group for 1-4 and nothing for "Unknown" |
| Mapping.GradeColorOf | server/mapping.py:18-26 | on the record's raw value, exactly a string succeeds; any other value raises AttributeError at `.lower()`; a string gets "gray" exactly when its lower-cased form is not a-e, else the table colour |
| Mapping.GradeColor | server/mapping.py:18-26 | the colour is "gray" exactly when the lower-cased grade is not a-e; otherwise it is the table colour of the lower-cased grade |
| Mapping.GradeColorCaseInsensitive | server/mapping.py:18-26 | `grade_color(g) == grade_color(lower(g))`, and the colour maps back to the lower-cased grade when that is a-e |
| Mapping.ScoreAssessment | server/mapping.py:31-43 | a falsy input gives "unknown"; a string gives the a-e label of its lower-cased form, or "unknown"; any other truthy value raises AttributeError |
| Mapping.ScoreAssessmentCaseInsensitive | server/mapping.py:31-43 | an assessment depends only on the lower-cased grade |
| Mapping.GradeField | server/mapping.py:48-51 | a grade is found exactly when the field (default "") is a string whose lower-cased form is one of a-e, and it is that lower-cased form |
| Mapping.PrimaryScoreOf | server/mapping.py:47-76 | grade is null iff type is null; a grade is one of A-E; a valid Nutri-Score grade gives type nutriscore with its grade and score; otherwise a valid Eco-Score grade gives type ecoscore with its grade and score; otherwise the null record with colour "#757575" and assessment "Unknown" |
| Mapping.PrimaryScoreConsistent | server/mapping.py:53-76 | a graded record's colour is `grade_color` of its grade, equal to that of the lower-cased grade, and maps back to it; its assessment is the titled `score_assessment` of the grade, one of Excellent/Good/Average/Poor/Very Poor |
| Mapping.NutriScoreWins | server/mapping.py:50-60 | with a valid Nutri-Score grade, changing the Eco-Score grade to any value leaves the primary score unchanged |
| Mapping.FoodIcon | server/mapping.py:80-84 | the icon is the slug (lower-cased, spaces to hyphens) of the first category in map order whose items contain the name; with no such category, the slug of the name |
| Mapping.FoodIconIsSlug | server/mapping.py:80-84 | every icon has no upper-case letter and no space, and slugging it again changes nothing |
| Normalize.FilterAdditiveValue | server/utils.py:21-23 | on the record's raw value, a non-iterable value raises TypeError and a non-string tag AttributeError; a list of strings gives exactly the string filter; a string argument gives the filter of its one-character strings, that is its characters other than "i" in order; a dict argument gives the filter of its keys in order |
| Normalize.FilterAdditive | server/utils.py:21-23 | no kept tag ends in "i", and no more tags come out than went in |
| Normalize.FilterAdditiveSelects | server/utils.py:21-23 | the result is the input read at exactly the positions of tags not ending in "i", in increasing order |
| Normalize.FilterAdditiveIdempotent | server/utils.py:21-23 | filtering twice equals filtering once |
| Normalize.ReshapeIngredient | server/utils.py:29-33 | a kept ingredient is reshaped iff its text is a string and its estimate converts to float; the entry's name is the title-cased text and its icon is the icon of that name |
| Normalize.FilterIngredientList | server/utils.py:27-37 | the comprehension succeeds iff every element is a dict and every kept element can be reshaped; the output is no longer than the input |
| Normalize.FilterIngredientSelects | server/utils.py:28-36 | entry j comes from the j-th kept ingredient in input order, with name = title(text), icon = food_icon(title(text)) and the ingredient's estimate |
| Normalize.FilterIngredient | server/utils.py:27-37 | a non-iterable argument raises TypeError; a non-empty string or dict argument raises, because its elements have no `.get`, and an empty one gives []; a list argument gives exactly the element-wise filter `FilterIngredientList`; the output never outnumbers the elements |
| Normalize.FilterIngredientDropsExactly | server/utils.py:35 | every output entry is reshaped from an input ingredient whose text is present and non-empty and whose estimate is not 0 (where `False` counts as 0); every ingredient with truthy text and a nonzero estimate yields an output entry reshaped from it |
| Normalize.AttachIcons | server/utils.py:44-45 | every element must be a dict with a string name (else AttributeError); each gets its icon set from its name, same length and order |
| Normalize.AttachIconsValue | server/utils.py:43-45 | a list value gets icons element-wise; an empty string or dict is left as is; a non-empty string or dict raises AttributeError and a non-iterable value raises TypeError |
| Normalize.UpdateCategory | server/utils.py:42-45 | only the named category's value changes, and it changes to the same list with icons attached; keys and their order are unchanged |
| Normalize.FilterNutriment | server/utils.py:41-46 | succeeds iff each present nutrient list can be processed; keys and their order are unchanged, every key other than the two lists keeps its value, and each list keeps its length with every entry's icon set from its name |
| Normalize.WithIconOnlySetsIcon | server/utils.py:45 | within a nutrient entry every field except "icon" keeps its value, and "icon" is `food_icon` of the entry's name |
| Normalize.CleanValueShape | server/utils.py:87-92 | cleaning undoes one prepended "en:"; a string without the prefix, a dict, a number, a boolean or null is unchanged; a list keeps its length and each element is cleaned recursively |
| Normalize.CleanStrIdempotentIff | server/utils.py:88-89 | removing the "en:" prefix a second time changes a string exactly when it starts with "en:en:" |
| Normalize.CleanValueIdempotentIff | server/utils.py:87-92 | cleaning twice equals cleaning once exactly when no string, at any list depth, starts with "en:en:" |
| Normalize.CleanValueNotIdempotent | server/utils.py:89 | "en:en:x" cleans to "en:x", and cleaning again gives "x" |
| Normalize.SchemaKeys | server/utils.py:94-98 | the emitted keys are exactly the schema keys present in the record, each once, in order of first appearance in the schema |
| Normalize.FilterData | server/utils.py:86-100 | the output has a key iff the schema lists it and the record has it, so absent keys are never filled with null; each value is the cleaned record value; keys are unique |
| Normalize.ProbeImages | server/utils.py:119-127 | the first image type, in probe order, that holds a dict supplies the image: its "display" entry if present, else the entry itself; {} when none does |
| Normalize.FilterImage | server/utils.py:104-116 | an empty or non-dict input gives {}; a dict "front" gives its "display" when that is a dict, else the front dict itself, so a dict front always yields a dict |
| Normalize.FilterImageFallback | server/utils.py:118-127 | without a front dict, "ingredients" then "nutrition" are probed; the first dict found gives its "display" entry, of any kind, or itself; with neither, {} |
| Middleware.Judge | server/middleware.py:39-48 | a raised validator gives 500 with its message; a result without "error" passes; an error text containing "Incorrect password." gives 401 with the result, any other error text 404; a list error value gives 401 with the result when it holds the string "Incorrect password." and 404 otherwise, and a dict error value does the same by key; an error value that is no container gives 500 |
| Middleware.AuthHandler | server/middleware.py:5-48 | OPTIONS and unrestricted paths always pass; with a "Bearer " token the request passes iff an email is given, else 401; without one, a missing email or password gives 401; otherwise the validator's outcome decides; every rejection is 401, 404 or 500 |
| Middleware.ValidatorOnlyWithCredentials | server/middleware.py:28-41 | outside non-OPTIONS, restricted, token-less requests with email and password, the decision is the same for any two validators: the validator is never consulted |
| Middleware.NotFoundOnlyFromValidator | server/middleware.py:41-45 | a 404 only comes from a consulted validator that returned an error that does not mention "Incorrect password." |
| Middleware.ErrorHandler | server/middleware.py:51-52 | every exception gives the same 500 response with the fixed message |
| Search.NutriscoreAssessmentAsWritten | server/search.py:101-103 | for a numeric score, the field raises exactly when the score is nonzero |
| Search.AssessmentFromScoreRaises | server/search.py:101-103 | a product graded "a" with score 3 makes the field raise; with score 0 the field reads "Unknown" |
| Search.NutriscoreAssessment | server/search.py:101-103 | computed from the grade, the field never raises for a string grade, reads "Unknown" when the grade is absent, and equals the primary score's assessment whenever the Nutri-Score grade is valid |

## Left out

- The search routes in `server/search.py` are left out. They orchestrate the
  product-database client, the document store and the AI calls, and they
  measure wall-clock time and byte size. Only the `nutriscore_assessment`
  field is modelled, for the finding below.
- `server/gemini.py` is left out: AI calls, file upload and temporary files.
- `server/app.py`, `server/metrics.py` and `server/config.py` are left out:
  Flask and CORS wiring, metrics export and environment configuration.
- `health_profile` and `chat_history` in `server/utils.py` are left out:
  they read and write the document store.
- `calculate_bmi` and the deprecated `analyse_nutrient` are left out: they
  are floating-point arithmetic and formatting.
- Loading the metadata JSON files at module import is left out. The category
  map, the additive table and the product schema are parameters.
- `auth_handler` calls `runtime_error` to log; the log is left out. Only the
  response is modelled.
- Normalize.ReshapeIngredient: the percentage is kept as the raw estimate, not
  formatted as `abs(float(x))` with two decimals and " %". `float()` failing
  on a string that is not a number is not modelled; only null, list and dict
  estimates raise.
- Text.Lower, Text.Upper and Text.Title follow Python's rules for ASCII
  letters only. Unicode case mapping is not modelled.
- Mapping.FoodIcon: category items are a list of strings. A category whose
  items are a single string, where Python's `in` tests for a substring, is
  not modelled.
- Normalize.FilterNutriment: Python updates its argument in place and returns
  the same object, while the model returns a new value and loses the icons
  set before an exception. Nothing in the modelled routes reads the argument
  after a failure, so the difference is not observable here.
- Normalize.FilterNutriment: the argument is typed as a dict. A non-dict
  argument, where Python's `in` and indexing behave differently, is not
  modelled.
- Python's `int` and `float` are both `Num(real)`, so `1` and `1.0` are the
  same value. They also compare and hash equal in Python.
- Mapping.GradeField: `str()` of a value that is not a string is treated as
  never being a valid grade, without modelling its text. `str()` of `None`, a
  boolean, a number, a list or a dict is never a single letter a-e.
- Exceptions carry only their kind, `TypeError` or `AttributeError`. The
  interpreter's message text is not modelled. The 500 body for the `TypeError`
  that `in` raises on a non-container keeps the offending value, not the
  message text.
- Python dicts cannot hold a key twice. The pair-sequence model allows it;
  lookup and assignment then act on the first occurrence.

## Findings

| source | as written | input that shows it | evidently intended | confidence | as-written member | corrected member |
|---|---|---|---|---|---|---|
| server/search.py:101-103 (also 183-185) | the `nutriscore_assessment` field passes the numeric `nutriscore_score` to `score_assessment`, which lower-cases a grade letter | a product with `nutriscore_grade` "a" and `nutriscore_score` 3: `.lower()` on an int raises, and the route answers 500; with score 0 the field is "Unknown" whatever the grade | pass `nutriscore_grade`, as the lookup's own comment and the `grade_color` call beside it do | medium (depends on the schema listing `nutriscore_score`); not executed | Search.NutriscoreAssessmentAsWritten, Search.AssessmentFromScoreRaises | Search.NutriscoreAssessment |
