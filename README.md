# apic_em_gather_facts in Dafny

A model of the two pieces of the Ansible module `apic_em_gather_facts.py` that have behaviour
of their own:

- `format_content` turns the reply to an ACI class query, `{"imdata": [{cls: {"attributes": {...}}}, ...]}`,
  into Ansible facts. The result is `{"ansible_facts": {cls: [attributes, ...]}}`. Each class name
  maps to the attribute records of the managed objects of that class, in input order.
- The `Connection` class keeps a session with an APIC-EM controller. It has three fields that
  change: `controllername`, `version` and `serviceTicket`. `aaaLogin` posts the credentials to
  `https://<controller>/api/v1/ticket` and stores the version and the service ticket from the reply.
  `genericGET` sends a GET to `https://<controller><path>` with the stored ticket as its headers.

Files:

- `json.dfy` (module `Json`): decoded JSON values and Python's `value[key]`. A dict without
  the key raises KeyError; any other value raises TypeError.
- `facts.dfy` (module `Facts`): `FormatContent` is a loop that builds the class dictionary in
  place. It is proved equal to `Grouping`, a per-class filter of the input, or to the first
  exception the loop would raise. Lemmas about `Grouping` state the properties.
- `connection.dfy` (module `ApicEm`): the `Connection` class. The network is abstracted. Each
  call returns the request it would send and takes the decoded reply as a parameter. That reply
  is either a connection error or a status code with content.

Behaviour of the code worth knowing:

- A login is not all-or-nothing. `controllername` is set before the request is sent.
  `version` is overwritten even when the reply then lacks `response.serviceTicket`.
- `genericGET` returns the status code whatever it is. It raises KeyError, and does not report
  an error, when the reply has no `response`.
- The initial `serviceTicket` is a Python set literal holding the single string
  `"X-Auth-Token: <your-ticket>"`, not a dict. The model keeps it as a set (`Headers.HeaderSet`).
  A GET before any successful login passes that set to `requests.get` as its headers.
- An exception other than KeyError escapes `aaaLogin`. This happens with TypeError when the reply
  or its `response` entry is not a dict. The model reports it as `Raised(TypeError)`.

## Model

| member | source | states |
|---|---|---|
| `Json.Lookup` | apic_em_gather_facts.py:178 | subscripting succeeds exactly on a dict holding the key and yields its value; otherwise KeyError for a dict, TypeError for anything else |
| `Facts.FormatContent` | apic_em_gather_facts.py:144-182 | a non-dict reply raises TypeError and a reply without `imdata` raises KeyError; otherwise the result exists iff every managed object has `attributes`, it is then the `ansible_facts` envelope of `Grouping(imdata)`, and on failure the error is that of the first object lacking attributes; an empty `imdata` yields `{"ansible_facts": {}}` |
| `Facts.OnlyKey` | apic_em_gather_facts.py:171-172 | any key of a one-key managed object is its class name, so `keys()[0]` is well defined |
| `Facts.FactsRoundTrip` | apic_em_gather_facts.py:167-182 | the result has exactly one top-level key, `ansible_facts`, and the class dictionary can be read back from it unchanged |
| `Facts.ClassesSnoc` | apic_em_gather_facts.py:172-176 | the class names of a longer input are those of the shorter one plus the class of the new item |
| `Facts.GroupingStep` | apic_em_gather_facts.py:173-179 | one more item appends its attributes to the end of its class's list, creating an empty list first only if the class is new, and leaves every other class unchanged |
| `Facts.MembersNonEmpty` | apic_em_gather_facts.py:173-179 | a class has a non-empty list if and only if it occurs in the input |
| `Facts.GroupingListsNonEmpty` | apic_em_gather_facts.py:170-181 | the output's key set equals the set of class tags in the input, and no output list is empty |
| `Facts.MembersSplit` | apic_em_gather_facts.py:170-179 | the list for a class over `s + t` is its list over `s` followed by its list over `t`: later items never reset or reorder earlier ones |
| `Facts.GroupingTotal` | apic_em_gather_facts.py:170-179 | exactly one append per input item: the list lengths add up to the length of `imdata` |
| `ApicEm.TicketOf` | apic_em_gather_facts.py:102 | `content["response"]["serviceTicket"]` succeeds exactly when both levels are dicts that hold the keys, and yields the ticket |
| `ApicEm.Connection.constructor` | apic_em_gather_facts.py:75-84 | version `"1.0"`, controller `192.0.2.1`, user and password `admin`, the placeholder ticket, transport `https://` and the JSON content-type header |
| `ApicEm.Connection.AaaLogin` | apic_em_gather_facts.py:85-106 | sets `controllername` first and posts the credentials to `https://` + controller + `/api/v1/ticket`; a connection error returns `(False, e)` with nothing else changed; a missing `version` returns `(False, "KeyError")` with version and ticket unchanged; a missing ticket returns `(False, "KeyError")` with `version` already overwritten and the ticket unchanged; on success the ticket becomes `{"X-Auth-Token": ticket}`, `version` the reply's version, and the result is `(status, content)`; the result is `LoginOutcome(reply)`; username and password are never stored |
| `ApicEm.LoginOutcome` | apic_em_gather_facts.py:94-106 | what `aaaLogin` returns for a reply: `(status, content)` exactly when the reply holds both `version` and `response.serviceTicket`; `(False, e)` exactly on a connection error; only a TypeError ever escapes |
| `ApicEm.GetOutcome` | apic_em_gather_facts.py:114-119 | what `genericGET` returns for a reply: `(status, content["response"])` exactly when the reply is a dict holding `response`; never `(False, "KeyError")`; an escaping error is KeyError for a dict without `response`, TypeError for a non-dict |
| `ApicEm.Connection.GenericGet` | apic_em_gather_facts.py:108-119 | sends a GET to `https://` + controller + path with the stored ticket as headers; returns `(status, content["response"])` exactly when the reply is a dict holding `response`, `(False, e)` on a connection error, and raises KeyError or TypeError otherwise; the result is `GetOutcome(reply)` |
| `ApicEm.LoginThenGet` | apic_em_gather_facts.py:70-72 | the login's result is `LoginOutcome(loginReply)` and the GET's, when one is issued, `GetOutcome(getReply)`; after a fresh login, the following GET goes to the same controller and carries the ticket of the login reply exactly when the login succeeded, and the placeholder after any other returned answer; an exception escaping the login means no GET is issued |

## Left out

- The HTTP calls `requests.post` and `requests.get`, and `verify=False`, are network I/O in a
  library outside this model. Their replies are parameters, and a connection error is a reply
  carrying its cause as a string.
- `HttpReply` can express only a reply or a `ConnectionError`. The model does not cover any other
  exception the library raises, such as its rejection of the placeholder set as headers.
- `json.dumps` and `json.loads` are not modelled. Content is already-decoded JSON, so the
  ValueError that `json.loads` raises on a body that is not JSON is not modelled.
- JSON numbers are integers in the model; floating point is not modelled.
- Python dict key order is not modelled, because dicts are Dafny maps. With one key per managed
  object the order does not matter for `keys()[0]`.
- `Facts.FormatContent` requires that `imdata`, when present, is a list of one-key dicts. This
  is what Python 2's `d_item.keys()[0]` needs. Iterating a non-list `imdata` is not modelled.
- `process` is not modelled because it cannot run as written. It calls `aaaLogin` and
  `genericGET` without their arguments, compares a tuple with 200, calls a missing `get_content`
  and uses `httplib`, which is never imported.
- `main` and the Ansible boundary (`AnsibleModule`, `fail_json`, `exit_json`) are not modelled.
  `main` also uses names that are never defined (`AnsibleACI`, `queryfilter`, `setcontrollerIP`,
  `aaaLogout`).
- The `DOCUMENTATION` and `EXAMPLES` strings are metadata with no behaviour.
