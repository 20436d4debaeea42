# Snowball: input validation of the clustering engine

Snowball groups feature vectors into clusters. This project models the part of
`src/snowball/clustering.py` that exists in the repository: the list of
supported distance functions (`DIST_FUNC`), the constructor `Snowball.__init__`,
and the dataset parser `Snowball._parse_data`. The parser turns a list of raw
vectors into records `{"id": i, "vector": v}` numbered in input order. It passes
a list of dicts through unchanged when the first dict has a truthy `"vector"`.
It rejects lists of fewer than two items and lists whose first item is a dict
with no truthy `"vector"`, and it returns None for every other input. A
non-list input, or a list whose first item is neither a list, an array nor a
dict, is therefore not rejected: parsing returns None and the engine's `data`
is None.

- `py_values.dfy` (module `PyValues`) holds the Python values the parser
  inspects: None, booleans, integers, strings, lists, one-dimensional numpy
  arrays and dicts with string keys. It also holds Python's truth value and
  `dict.get`.
- `clustering.dfy` (module `Clustering`) holds the three exceptions as an
  `Error` datatype, `DistFunc`, the specification functions `Parse` and `Init`,
  and the class `Snowball`. That class has the two fields `data` and
  `distanceFunction`. `ParseData` is the parser's loop; `New` is the constructor.

A Dafny constructor cannot raise, so `Snowball.New` is a static method. It
returns `Err(e)` where Python raises, and a fresh engine otherwise. It parses
the data first and checks the distance function second, as Python does. Python
stores `data` before that check and the distance function after it; `New`
stores both once the check has passed (see "Left out"). Every engine holds data
of a shape the parser returns and a supported distance function
(`Snowball.Valid`).

## Model

| member | source | states |
|---|---|---|
| `Clustering.Parse` | src/snowball/clustering.py:20-36 | A list of fewer than two items raises TooFew whatever it holds, and nothing else does. NoVectorKey is raised exactly when the first of at least two items is a dict without a truthy "vector". A successful list result has as many items as the input. None comes back exactly for a non-list, or for a list of at least two items whose first item is neither a vector nor a dict. Every successful result is None or a list of at least two items whose first item is a dict. |
| `Clustering.Snowball.ParseData` | src/snowball/clustering.py:20-36 | The parser, with its append loop, returns exactly what `Parse` specifies. |
| `Clustering.Enumerate` | src/snowball/clustering.py:26-31 | Wrapping keeps the length, and item k is the record with id start+k and the k-th input as its vector. |
| `Clustering.VectorsOfEnumerate` | src/snowball/clustering.py:27-30 | Reading the "vector" back out of the wrapped records gives the input sequence. |
| `Clustering.VectorListWrapped` | src/snowball/clustering.py:24-31 | A list of at least two items that starts with a vector becomes one record per item. The ids are 0..n-1 in input order and the vectors are unaltered. |
| `Clustering.DictListPassedThrough` | src/snowball/clustering.py:32-36 | A list that starts with a dict with a truthy "vector" is returned unchanged whatever its later items are. |
| `Clustering.ReparseWrapped` | src/snowball/clustering.py:24-36 | Parsing the wrapped records again returns them unchanged when the first input vector is non-empty. When it is empty, the second parse raises NoVectorKey. |
| `Clustering.Init` | src/snowball/clustering.py:9-16 | A data error is raised whatever the distance function. BadDistance is raised exactly when the data parses and the distance function is not "l2" or "cosine". Construction succeeds exactly when both checks pass, and then it stores the parsed data and the given distance function. |
| `Clustering.Snowball.New` | src/snowball/clustering.py:11-16 | Construction raises exactly the error `Init` gives. Otherwise it returns a fresh engine that holds a supported distance function and whose two fields are the ones `Init` gives. |

## Left out

- `src/snowball/utils.py` (`coerce_array`, `l2_norm`, `cosine_similarity`) is not part of this model. It is floating-point numerics delegated to numpy.
- The greedy clustering pass, cluster tags, thresholds, minimum cluster size and directory input have no code in `clustering.py`, so they are not modelled.
- Numbers are integers: floats, and their truth values, are not modelled.
- A numpy array counts as true when it is non-empty and false when it is empty. numpy raises "ambiguous truth value" for an array of more than one element, uses the element's own truth for a one-element array, and for an empty array either returns False with a deprecation warning (older releases) or raises ValueError (2.2 on); in the dict branch an empty-array "vector" then raises numpy's ValueError where the model raises NoVectorKey. None of these numpy behaviours is modelled.
- Input types are tags of one datatype. Subclasses of list, dict or numpy array, and the exact-type tests (`type(x) is list`), are not modelled.
- Dict keys are strings. Dicts with other key types are not modelled.
- Exceptions are the three `Error` tags. Their message texts are not modelled.
- Clustering.Snowball.New: stores `data` after the distance-function check, where Python assigns it before (line 12). A caller of `Snowball(...)` gets no engine on an error either way. Code that catches the exception inside a subclass's `__init__`, or re-runs `__init__` on an existing engine, sees `data` already replaced while the distance function is missing or still the old one; the model does not capture that half-updated state.
- Python values are modelled as immutable values. `_parse_data` returns the caller's own list object in the dict branch (line 36), and the records built in the vector branch hold the caller's own vector objects (line 29). Changes the caller makes to that list or those vectors after construction therefore show in the engine's `data`. The model compares by value only, so it does not capture this sharing (aliasing) or later updates in place.
