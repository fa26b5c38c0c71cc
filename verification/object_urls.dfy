/**
 * The browser's table of blob URLs, as far as the chat sidebar uses it:
 * `URL.createObjectURL` hands out a handle never handed out before and makes
 * it live; `URL.revokeObjectURL` makes it dead. The ghost log records every
 * revoke call, so that "released at most once" can be stated.
 */
module ObjectUrls {
  import opened Attachments

  class UrlRegistry {
    ghost var live: set<Handle>
    var issued: nat
    ghost var revoked: seq<Handle>

    /** Every live handle was handed out, so the next one is fresh. */
    ghost predicate Valid()
      reads this
    {
      forall h :: h in live ==> h < issued
    }

    /** Every logged revoke released a handle that had been handed out and is
        dead now, and no handle was revoked twice. This is a discipline of the
        registry's client, not of the registry. */
    ghost predicate RevokedOnce()
      reads this
    {
      (forall k :: 0 <= k < |revoked| ==> revoked[k] < issued && revoked[k] !in live) &&
      (forall i, j :: 0 <= i < j < |revoked| ==> revoked[i] != revoked[j])
    }

    constructor ()
      ensures Valid() && RevokedOnce() && live == {} && issued == 0 && revoked == []
    {
      live, issued, revoked := {}, 0, [];
    }

    /** `URL.createObjectURL(file)`. */
    method CreateObjectUrl() returns (h: Handle)
      requires Valid()
      modifies this
      ensures Valid()
      ensures old(RevokedOnce()) ==> RevokedOnce()
      ensures h == old(issued) && h !in old(live)
      ensures live == old(live) + {h} && issued == old(issued) + 1 && revoked == old(revoked)
    {
      h := issued;
      issued := issued + 1;
      live := live + {h};
    }

    /** `URL.revokeObjectURL(h)`. */
    method RevokeObjectUrl(h: Handle)
      requires Valid()
      modifies this
      ensures Valid()
      ensures old(RevokedOnce()) && h in old(live) ==> RevokedOnce()
      ensures live == old(live) - {h} && issued == old(issued) && revoked == old(revoked) + [h]
    {
      live := live - {h};
      revoked := revoked + [h];
    }
  }
}
