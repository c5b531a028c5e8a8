/** The store of upload progress that outlives a failed upload: set, and take-and-delete. */
module UploadProgress {
  import opened Prelude

  function Join(keys: seq<string>): string {
    if keys == [] then "" else if |keys| == 1 then keys[0] else keys[0] + "-" + Join(keys[1..])
  }

  function Key(driver: string, keys: seq<string>): string {
    driver + "-upload-" + Join(keys)
  }

  /** A saved state; None is a saved nil, which the typed read does not accept. */
  class Store<T(==)> {
    var entries: map<string, Option<T>>

    constructor ()
      ensures entries == map[]
    {
      entries := map[];
    }

    method Save(key: string, state: Option<T>)
      modifies this
      ensures entries == old(entries)[key := state]
    {
      entries := entries[key := state];
    }

    /** GetDel and the type assertion: whatever was there is gone afterwards. */
    method Take(key: string) returns (state: Option<T>)
      modifies this
      ensures entries == old(entries) - {key}
      ensures state == if key in old(entries) then old(entries)[key] else None
    {
      state := if key in entries then entries[key] else None;
      entries := entries - {key};
    }

    /** Entries live for twenty minutes. */
    method Expire(key: string)
      modifies this
      ensures entries == old(entries) - {key}
    {
      entries := entries - {key};
    }
  }

  lemma {:induction false} LastDash(a: string, b: string, x: string, y: string)
    requires a + "-" + x == b + "-" + y && '-' !in x && '-' !in y
    ensures a == b && x == y
  {
    var s, t := a + "-" + x, b + "-" + y;
    assert s[|a|] == '-' && t[|b|] == '-';
    assert forall i :: |a| < i < |s| ==> s[i] == x[i - |a| - 1];
    assert forall i :: |b| < i < |t| ==> t[i] == y[i - |b| - 1];
    assert |a| == |b|;
    assert s[..|a|] == a && t[..|b|] == b && s[|a| + 1..] == x && t[|b| + 1..] == y;
  }

  lemma JoinTwo(a: string, b: string)
    ensures Join([a, b]) == a + "-" + b
  {
    assert [a, b][1..] == [b];
  }

  /** Uploads of different contents, or under different tokens, never share an entry: the content
      digest holds no dash. */
  lemma KeysDiffer(driver: string, token: string, digest: string, token': string, digest': string)
    requires '-' !in digest && '-' !in digest'
    requires Key(driver, [token, digest]) == Key(driver, [token', digest'])
    ensures token == token' && digest == digest'
  {
    var d := driver + "-upload-";
    JoinTwo(token, digest);
    JoinTwo(token', digest');
    assert Key(driver, [token, digest])[|d|..] == Join([token, digest]);
    assert Key(driver, [token', digest'])[|d|..] == Join([token', digest']);
    LastDash(token, token', digest, digest');
  }
}
