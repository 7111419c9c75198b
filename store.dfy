/** The record store the landing page and the admin page share: one key,
    `'applications'`, of the browser's local storage, holding the list of
    lead records in submission order. */
module Store {

  datatype Option<T> = None | Some(value: T)

  /** One lead record. `id` is the submission's millisecond clock reading and
      `timestamp` its ISO-8601 text; neither is checked for uniqueness. */
  datatype Application = Application(
    id: int,
    fullName: string,
    telegram: string,
    email: string,
    message: string,
    timestamp: string)

  /** The storage key `'applications'`: `None` while nothing was ever written
      under it, otherwise the decoded list last written. */
  class LocalStorage {
    var applications: Option<seq<Application>>

    constructor (initial: Option<seq<Application>>)
      ensures applications == initial
    {
      applications := initial;
    }
  }

  /** `JSON.parse(localStorage.getItem('applications') || '[]')`: an absent key
      reads as the empty list, a present one as what was written. */
  function StoredOrEmpty(stored: Option<seq<Application>>): (apps: seq<Application>)
    ensures stored.None? ==> apps == []
    ensures stored.Some? ==> apps == stored.value
  {
    match stored
    case None => []
    case Some(list) => list
  }

  /** `applications.filter(app => app.id !== id)`. */
  function WithoutId(apps: seq<Application>, id: int): (r: seq<Application>)
    ensures |r| <= |apps|
    ensures (forall a :: a in apps ==> a.id != id) ==> r == apps
  {
    if apps == [] then []
    else (if apps[0].id == id then [] else [apps[0]]) + WithoutId(apps[1..], id)
  }

  /** The kept records are exactly the stored ones whose id differs. */
  lemma {:induction false} WithoutIdMembers(apps: seq<Application>, id: int)
    ensures forall a :: a in WithoutId(apps, id) <==> a in apps && a.id != id
  {
    if apps != [] {
      WithoutIdMembers(apps[1..], id);
      assert apps == [apps[0]] + apps[1..];
    }
  }

  /** Number of records carrying `id`. */
  function CountId(apps: seq<Application>, id: int): nat
  {
    if apps == [] then 0 else (if apps[0].id == id then 1 else 0) + CountId(apps[1..], id)
  }

  /** The filter keeps relative order: filtering a concatenation is the
      concatenation of the filtered halves. */
  lemma {:induction false} WithoutIdAppend(xs: seq<Application>, ys: seq<Application>, id: int)
    ensures WithoutId(xs + ys, id) == WithoutId(xs, id) + WithoutId(ys, id)
  {
    if xs == [] {
      assert xs + ys == ys;
    } else {
      var head := if xs[0].id == id then [] else [xs[0]];
      var rest, right := WithoutId(xs[1..], id), WithoutId(ys, id);
      assert WithoutId(xs + ys, id) == head + (rest + right) by {
        assert (xs + ys)[0] == xs[0] && (xs + ys)[1..] == xs[1..] + ys;
        WithoutIdAppend(xs[1..], ys, id);
      }
      assert head + (rest + right) == (head + rest) + right;
    }
  }

  /** Every record with the id goes, duplicates included, and nothing else does. */
  lemma {:induction false} WithoutIdLength(apps: seq<Application>, id: int)
    ensures |WithoutId(apps, id)| + CountId(apps, id) == |apps|
  {
    if apps != [] {
      WithoutIdLength(apps[1..], id);
    }
  }

  /** Ids are never checked on submit: deleting the id of the record just
      appended removes it together with every older record that shares it. */
  lemma WithoutIdAfterAppend(apps: seq<Application>, x: Application)
    ensures WithoutId(apps + [x], x.id) == WithoutId(apps, x.id)
  {
    WithoutIdAppend(apps, [x], x.id);
    assert WithoutId([x], x.id) == [];
  }
}
