/** A configuration directory as every loader sees it, and the
    "one file per model, later files win" rule all loaders share. Each
    loader supplies an `admit` function: the model id and configuration a
    directory entry yields, or None when the entry is skipped. The Python
    loader collects into a dict, the Go loaders into a map. */
module Files {
  import opened Base
  import opened Dicts

  /** One directory entry; `content` is None when the file cannot be read. */
  datatype DirEntry = DirEntry(name: string, isDir: bool, content: Option<string>)

  /** The configuration that the LAST entry admitted under `k` yields: the
      reference meaning of a loader's result at key `k`. */
  function LastAdmitted<C>(es: seq<DirEntry>, admit: DirEntry -> Option<(string, C)>, k: string): Option<C> {
    if |es| == 0 then None
    else
      match admit(es[|es| - 1])
      case Some(p) => if p.0 == k then Some(p.1) else LastAdmitted(es[..|es| - 1], admit, k)
      case None => LastAdmitted(es[..|es| - 1], admit, k)
  }

  /** Entry `i` is admitted under key `k`. */
  predicate AdmittedAt<C>(es: seq<DirEntry>, admit: DirEntry -> Option<(string, C)>, k: string, i: int) {
    0 <= i < |es| && admit(es[i]).Some? && admit(es[i]).value.0 == k
  }

  /** A key has a configuration exactly when some entry is admitted under it. */
  lemma {:induction false} LastAdmittedSome<C>(es: seq<DirEntry>, admit: DirEntry -> Option<(string, C)>, k: string)
    ensures LastAdmitted(es, admit, k).Some? <==> exists i :: AdmittedAt(es, admit, k, i)
  {
    if |es| > 0 {
      var init := es[..|es| - 1];
      LastAdmittedSome(init, admit, k);
      if AdmittedAt(es, admit, k, |es| - 1) {
        assert LastAdmitted(es, admit, k).Some?;
      } else {
        assert LastAdmitted(es, admit, k) == LastAdmitted(init, admit, k);
        forall i | 0 <= i < |init|
          ensures AdmittedAt(es, admit, k, i) <==> AdmittedAt(init, admit, k, i)
        {
          assert es[i] == init[i];
        }
      }
    }
  }

  /** Go's loop `configs[id] = cfg` over the entries. */
  function LoadMap<C>(es: seq<DirEntry>, admit: DirEntry -> Option<(string, C)>): map<string, C> {
    if |es| == 0 then map[]
    else
      var m := LoadMap(es[..|es| - 1], admit);
      match admit(es[|es| - 1])
      case Some(p) => m[p.0 := p.1]
      case None => m
  }

  /** The map holds exactly the keys some entry was admitted under, each
      with what the last such entry yields. */
  lemma {:induction false} LoadMapIsLastAdmitted<C>(es: seq<DirEntry>, admit: DirEntry -> Option<(string, C)>, k: string)
    ensures k in LoadMap(es, admit) <==> LastAdmitted(es, admit, k).Some?
    ensures k in LoadMap(es, admit) ==> LoadMap(es, admit)[k] == LastAdmitted(es, admit, k).value
  {
    if |es| > 0 {
      LoadMapIsLastAdmitted(es[..|es| - 1], admit, k);
    }
  }

  /** Two admit functions that agree on every entry load the same map. */
  lemma {:induction false} LoadMapAgree<C>(es: seq<DirEntry>, f: DirEntry -> Option<(string, C)>, g: DirEntry -> Option<(string, C)>)
    requires forall i :: 0 <= i < |es| ==> f(es[i]) == g(es[i])
    ensures LoadMap(es, f) == LoadMap(es, g)
  {
    if |es| > 0 {
      var init := es[..|es| - 1];
      assert forall i :: 0 <= i < |init| ==> init[i] == es[i];
      LoadMapAgree(init, f, g);
    }
  }

  /** Python's loop `configs[model_id] = cfg` over the entries. */
  function LoadDict<C>(es: seq<DirEntry>, admit: DirEntry -> Option<(string, C)>): Dict<C> {
    if |es| == 0 then []
    else
      var d := LoadDict(es[..|es| - 1], admit);
      match admit(es[|es| - 1])
      case Some(p) => Put(d, p.0, p.1)
      case None => d
  }

  /** The dict agrees with the reference at every key and never holds a key
      twice. */
  lemma {:induction false} LoadDictIsLastAdmitted<C>(es: seq<DirEntry>, admit: DirEntry -> Option<(string, C)>, k: string)
    ensures Find(LoadDict(es, admit), k) == LastAdmitted(es, admit, k)
    ensures UniqueKeys(LoadDict(es, admit))
  {
    if |es| > 0 {
      var init := es[..|es| - 1];
      var d := LoadDict(init, admit);
      LoadDictIsLastAdmitted(init, admit, k);
      match admit(es[|es| - 1])
      case Some(p) =>
        PutFind(d, p.0, p.1, k);
        PutKeepsUnique(d, p.0, p.1);
      case None =>
    }
  }

  /** Every value stored in the dict came from an entry admitted under the
      key it is stored at. */
  lemma {:induction false} LoadDictEntriesAdmitted<C>(es: seq<DirEntry>, admit: DirEntry -> Option<(string, C)>, j: int)
    requires 0 <= j < |LoadDict(es, admit)|
    ensures exists i :: (AdmittedAt(es, admit, LoadDict(es, admit)[j].0, i)
                         && admit(es[i]).value.1 == LoadDict(es, admit)[j].1)
  {
    var init := es[..|es| - 1];
    var d := LoadDict(init, admit);
    var k := LoadDict(es, admit)[j].0;
    LoadDictIsLastAdmitted(es, admit, k);
    LoadDictIsLastAdmitted(init, admit, k);
    match admit(es[|es| - 1])
    case Some(p) =>
      if p.0 == k {
        FindAt(LoadDict(es, admit), j);
        assert AdmittedAt(es, admit, k, |es| - 1);
      } else {
        FindAt(LoadDict(es, admit), j);
        PutFind(d, p.0, p.1, k);
        var jj :| 0 <= jj < |d| && Keys(d)[jj] == k;
        FindAt(d, jj);
        LoadDictEntriesAdmitted(init, admit, jj);
        var i :| AdmittedAt(init, admit, k, i) && admit(init[i]).value.1 == d[jj].1;
        assert AdmittedAt(es, admit, k, i);
      }
    case None =>
      LoadDictEntriesAdmitted(init, admit, j);
      var i :| AdmittedAt(init, admit, k, i) && admit(init[i]).value.1 == d[j].1;
      assert AdmittedAt(es, admit, k, i);
  }
}
