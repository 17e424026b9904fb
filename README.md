# Intent catalog, training data and first-match responder

A model of the repository's own logic in `app_flask.py`, a small intent-classification
chatbot. The chatbot keeps a fixed catalog of intents (a tag, example patterns,
canned responses, and an optional context list that nothing reads). At start-up it
flattens the catalog into two parallel lists. `tags` holds one label per example
pattern and `patterns` holds the pattern itself. These two lists train a classifier.
For each message, the classifier predicts a tag. `chatbot_response` then scans the
catalog in order and returns a random response of the first record carrying that tag.

Modules:

- `Wrappers` (`wrappers.dfy`): `Option`, Python's "value or None".
- `Intents` (`intents.dfy`): the `Intent` record and the concrete fourteen-record `Catalog`, copied record for record.
- `Training` (`training.dfy`): the nested flattening loop as the method `Flatten`. It is proved against the specification functions `TrainingTags`, `TrainingPatterns` and `PatternCount`. Lemmas give their lengths, concatenation order, the index of each pattern, the owner of each entry, and the effect of records without patterns.
- `Responder` (`responder.dfy`): the first-match scan `FirstMatch` and the response pick `Respond`. The random choice is an index argument, and the classifier's prediction is the `tag` argument.

Two records share the tag "thanks" (indices 2 and 10) and two share "goodbye"
(indices 1 and 13). Both records of a pair contribute training examples under the
shared tag. Replies always come from the earlier record, so the later record's
responses are never used. The model keeps this first-match behaviour.

The lookup in `chatbot_response` has two error paths:

- A tag that matches no record makes the loop run off the end, so the function
  returns `None`. The model answers `NoIntent`.
- When the first matching record has no responses, `random.choice` raises
  `IndexError`. The model answers `EmptyResponses`. Every record of the concrete
  catalog has responses (`Intents.CatalogShape`), so this case never occurs there.

## Model

| member | source | states |
|---|---|---|
| `Intents.CatalogShape` | app_flask.py:11-87 | The catalog has fourteen records, and every record has at least one response. "thanks" (indices 2 and 10) and "goodbye" (indices 1 and 13) are duplicated, and each pair's earlier record is the first with that tag. The two "thanks" records share no response. "Have a nice day there" is response 1 of the later "goodbye" (index 13) and is offered by no record before it. "no_answer" has an empty pattern list. |
| `Training.Flatten` | app_flask.py:96-101 | The nested loop appends each record's tag and each of its patterns. The resulting `tags` and `patterns` are exactly the flattened labels and documents of the catalog, and both have one entry per example pattern. |
| `Training.Lengths` | app_flask.py:96-101 | `tags` and `patterns` have equal length. That length is the sum of the pattern counts of all records. |
| `Training.FlattenAppend` | app_flask.py:98-101 | Flattening a catalog `a + b` gives the flattening of `a` followed by the flattening of `b`, for labels, documents and counts alike. So catalog order is preserved. |
| `Training.SingleRecord` | app_flask.py:99-101 | One record flattens to its own patterns in their own order, each labelled with the record's tag. |
| `Training.Split` | app_flask.py:98-101 | Around any record `i`, the documents are: everything before `i`, then `i`'s patterns in order, then everything after `i`. The labels split the same way, with `i`'s tag repeated once per pattern. |
| `Training.PairedAt` | app_flask.py:98-101 | Pattern `j` of record `i` sits at position `Offset(i) + j` of `patterns`. `tags` holds record `i`'s tag at that same position. |
| `Training.EntryOwner` | app_flask.py:99-101 | Every position `k` of the flattened lists is `Offset(i) + j` for some record `i` and pattern index `j`. `patterns[k]` is that record's pattern `j`, and `tags[k]` is that record's tag. |
| `Training.TrainedTag` | app_flask.py:98-100 | A tag is among the training labels if and only if some record with that tag has at least one pattern. |
| `Training.SilentRecord` | app_flask.py:98-101 | Inserting a record with no patterns anywhere in a catalog changes neither `tags` nor `patterns`. |
| `Training.NoAnswerUntrained` | app_flask.py:69-74 | Dropping "no_answer" from the catalog leaves the training data unchanged, and "no_answer" is never a training label. |
| `Training.DuplicatesTrained` | app_flask.py:63-86 | At the position of the later "thanks" record's first pattern, `patterns` holds that pattern and `tags` holds "thanks". The same holds for the later "goodbye" record. |
| `Responder.FirstMatch` | app_flask.py:114-115 | The scan finds nothing exactly when no record has the tag. Otherwise it returns a record with the tag such that every earlier record has a different tag. |
| `Responder.Respond` | app_flask.py:114-117 | The result is `None` (`NoIntent`) exactly when no record carries the tag. A reply is a response of the first record carrying the tag. `EmptyResponses` arises only when that first record has no responses. |
| `Responder.FirstRecordAnswers` | app_flask.py:114-117 | If record `i` is the first with the tag, the reply is its response number `pick`, whatever later records share the tag. |
| `Responder.TrainedTagResolves` | app_flask.py:100-117 | Any training label is found by the scan, at or before every record that contributed a pattern under it. The answer is never `None`, and it is a reply whenever every record has responses. |
| `Responder.SharedTag` | app_flask.py:96-117 | When a later record shares the first record's tag and has patterns, the position of its first pattern holds that pattern in `patterns` and the shared tag in `tags`. The reply still comes from the first record. |
| `Responder.CatalogDuplicates` | app_flask.py:17-86 | In the concrete catalog, the reply for "thanks" is always response number `pick` of record 2, the earlier record, and its text is none of record 10's responses. The reply for "goodbye" is always response number `pick` of record 1, and its text is never "Have a nice day there", which only record 13 offers. |

## Left out

- TF-IDF vectorisation and logistic regression (`app_flask.py:4-5`, `89-93`, `103-108`, `112-113`): scikit-learn calls doing floating-point numerics, whose internals are not part of this model. The predicted tag is the `tag` argument of `Respond`. `TrainedTagResolves` covers the case where the tag is one of the training labels.
- `random.choice` (`app_flask.py:116`): the random source is replaced by a caller-supplied index `pick`. `PickInRange` requires the index to lie within the matched record's responses whenever there are any.
- The Flask application, its route and template rendering (`app_flask.py:1`, `119-133`): HTTP and UI plumbing.
- `nltk.download("punkt")` (`app_flask.py:8`): a network side effect whose result is never used.
- The `context` field: it is kept in `Intent` as it appears in the catalog, but no code reads it, so no property mentions it.
