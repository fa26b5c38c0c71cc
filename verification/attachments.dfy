/**
 * Pending attachments of the chat sidebar and the sequence updaters the
 * sidebar applies to them (`prev.find`, `prev.filter`), together with the
 * preview handles they hold.
 */
module Attachments {
  import opened Options
  import opened Text

  /** A preview handle: stands for the blob URL string that
      `URL.createObjectURL` returns. Two allocations never return the same one. */
  type Handle = nat

  /** What the file picker or the clipboard hands over (a browser `File`). */
  datatype File = File(name: string, size: nat, mimeType: string)

  /** One attachment. `id` is the `Date.now()` reading taken when it was
      added (its decimal rendering is injective, so the number stands for the
      string); `url` is the preview handle, if one was allocated. */
  datatype AttachedFile = AttachedFile(id: nat, name: string, size: nat, mimeType: string, url: Option<Handle>)

  /** Name given to a pasted image whose `File` has an empty name. */
  const PastedImageName: string := "pasted-image.png"

  /** The attachment built by the file picker's `onchange`: a preview handle
      `h` is used exactly when the file's type is an image type. */
  function PickedAttachment(f: File, now: nat, h: Handle): (a: AttachedFile)
    ensures a.id == now && a.name == f.name && a.size == f.size && a.mimeType == f.mimeType
    ensures a.url.Some? <==> IsImageType(f.mimeType)
    ensures a.url.Some? ==> a.url.value == h
  {
    AttachedFile(now, f.name, f.size, f.mimeType, if IsImageType(f.mimeType) then Some(h) else None)
  }

  /** The attachment built from a pasted clipboard file: it always holds the
      preview handle `h`, and an empty file name falls back to
      `PastedImageName`. */
  function PastedAttachment(f: File, now: nat, h: Handle): (a: AttachedFile)
    ensures a.id == now && a.size == f.size && a.mimeType == f.mimeType
    ensures a.url == Some(h)
    ensures a.name != ""
    ensures f.name != "" ==> a.name == f.name
    ensures f.name == "" ==> a.name == PastedImageName
  {
    AttachedFile(now, if f.name != "" then f.name else PastedImageName, f.size, f.mimeType, Some(h))
  }

  /** Index of the first entry whose id is `id`, if any. */
  function FirstMatch(s: seq<AttachedFile>, id: nat): (r: Option<nat>)
    ensures r.None? <==> forall i :: 0 <= i < |s| ==> s[i].id != id
    ensures r.Some? ==> r.value < |s| && s[r.value].id == id
    ensures r.Some? ==> forall j :: 0 <= j < r.value ==> s[j].id != id
  {
    if s == [] then None
    else if s[0].id == id then Some(0)
    else match FirstMatch(s[1..], id)
      case None => None
      case Some(k) => Some(k + 1)
  }

  /** `prev.find(f => f.id === id)`. */
  function Find(s: seq<AttachedFile>, id: nat): (r: Option<AttachedFile>)
    ensures r.Some? <==> FirstMatch(s, id).Some?
    ensures r.Some? ==> r.value == s[FirstMatch(s, id).value] && r.value.id == id
  {
    match FirstMatch(s, id)
    case None => None
    case Some(k) => Some(s[k])
  }

  /** `prev.filter(f => f.id !== id)`: every entry with that id is dropped. */
  function FilterOut(s: seq<AttachedFile>, id: nat): (r: seq<AttachedFile>)
    ensures |r| <= |s|
    ensures forall a :: a in r <==> a in s && a.id != id
    ensures (forall i :: 0 <= i < |s| ==> s[i].id != id) ==> r == s
    ensures (exists i :: 0 <= i < |s| && s[i].id == id) ==> |r| < |s|
  {
    if s == [] then []
    else if s[0].id == id then FilterOut(s[1..], id)
    else [s[0]] + FilterOut(s[1..], id)
  }

  /** Filtering distributes over concatenation: the kept entries keep their
      relative order. */
  lemma {:induction false} FilterOutAppend(s: seq<AttachedFile>, t: seq<AttachedFile>, id: nat)
    ensures FilterOut(s + t, id) == FilterOut(s, id) + FilterOut(t, id)
  {
    if s == [] {
      assert s + t == t;
    } else {
      assert (s + t)[1..] == s[1..] + t;
      FilterOutAppend(s[1..], t, id);
    }
  }

  /** A second filter with the same id changes nothing, and finds nothing. */
  lemma FilterOutIdempotent(s: seq<AttachedFile>, id: nat)
    ensures FilterOut(FilterOut(s, id), id) == FilterOut(s, id)
    ensures Find(FilterOut(s, id), id) == None
  {
    var r := FilterOut(s, id);
    forall i | 0 <= i < |r| ensures r[i].id != id {
      assert r[i] in r;
    }
  }

  /** The preview handles held by a sequence of attachments. */
  function Handles(s: seq<AttachedFile>): set<Handle> {
    set a | a in s && a.url.Some? :: a.url.value
  }

  /** No two entries share a preview handle. */
  predicate DistinctHandles(s: seq<AttachedFile>) {
    forall i, j :: 0 <= i < j < |s| && s[i].url.Some? && s[j].url.Some? ==> s[i].url.value != s[j].url.value
  }

  /** The handle `removeAttachedFile(id)` revokes: that of the FIRST entry
      with the id, when that entry has one. */
  function Released(s: seq<AttachedFile>, id: nat): (r: Option<Handle>)
    ensures r.Some? ==> r.value in Handles(s)
    ensures r.Some? ==> exists a :: a in s && a.id == id && a.url == r
    ensures (forall i :: 0 <= i < |s| ==> s[i].id != id) ==> r.None?
    ensures FirstMatch(s, id).Some? ==> r == s[FirstMatch(s, id).value].url
  {
    match Find(s, id)
    case None => None
    case Some(a) => assert a in s; a.url
  }

  /** Appending one entry adds exactly its handle; if that handle is new,
      handles stay distinct. */
  lemma AppendHandles(s: seq<AttachedFile>, a: AttachedFile)
    ensures Handles(s + [a]) == Handles(s) + (if a.url.Some? then {a.url.value} else {})
    ensures DistinctHandles(s) && (a.url.Some? ==> a.url.value !in Handles(s)) ==> DistinctHandles(s + [a])
  {
    var t := s + [a];
    assert forall b :: b in t <==> b in s || b == a;
    if DistinctHandles(s) && (a.url.Some? ==> a.url.value !in Handles(s)) {
      forall i, j | 0 <= i < j < |t| && t[i].url.Some? && t[j].url.Some?
        ensures t[i].url.value != t[j].url.value
      {
        if j == |s| {
          assert t[i] in s;
        }
      }
    }
  }

  /** Handles of an entry placed in front of a sequence. */
  lemma ConsHandles(a: AttachedFile, s: seq<AttachedFile>)
    ensures Handles([a] + s) == Handles(s) + (if a.url.Some? then {a.url.value} else {})
    ensures DistinctHandles([a] + s) <==> DistinctHandles(s) && (a.url.Some? ==> a.url.value !in Handles(s))
  {
    var t := [a] + s;
    assert forall b :: b in t <==> b == a || b in s;
    assert t[1..] == s;
    if DistinctHandles(t) {
      if a.url.Some? {
        forall b | b in s && b.url.Some? ensures b.url.value != a.url.value {
          var k :| 0 <= k < |s| && s[k] == b;
          assert t[0] == a && t[k + 1] == b;
        }
      }
      forall i, j | 0 <= i < j < |s| && s[i].url.Some? && s[j].url.Some?
        ensures s[i].url.value != s[j].url.value
      {
        assert t[i + 1] == s[i] && t[j + 1] == s[j];
      }
    }
    if DistinctHandles(s) && (a.url.Some? ==> a.url.value !in Handles(s)) {
      forall i, j | 0 <= i < j < |t| && t[i].url.Some? && t[j].url.Some?
        ensures t[i].url.value != t[j].url.value
      {
        if i == 0 {
          assert t[j] in s;
        } else {
          assert t[i] == s[i - 1] && t[j] == s[j - 1];
        }
      }
    }
  }

  /** Filtering keeps handles distinct. */
  lemma {:induction false} FilterOutDistinct(s: seq<AttachedFile>, id: nat)
    requires DistinctHandles(s)
    ensures DistinctHandles(FilterOut(s, id))
  {
    if s != [] {
      assert s == [s[0]] + s[1..];
      ConsHandles(s[0], s[1..]);
      FilterOutDistinct(s[1..], id);
      if s[0].id != id {
        ConsHandles(s[0], FilterOut(s[1..], id));
      }
    }
  }

  /** The handle revoked by a remove is held by no entry the remove keeps. */
  lemma {:induction false} ReleasedNotRetained(s: seq<AttachedFile>, id: nat)
    requires DistinctHandles(s)
    requires Released(s, id).Some?
    ensures Released(s, id).value !in Handles(FilterOut(s, id))
  {
    var h := Released(s, id).value;
    assert s == [s[0]] + s[1..];
    ConsHandles(s[0], s[1..]);
    if s[0].id == id {
      assert h == s[0].url.value;
    } else {
      assert Find(s[1..], id) == Find(s, id);
      ReleasedNotRetained(s[1..], id);
      assert h in Handles(s[1..]);
      ConsHandles(s[0], FilterOut(s[1..], id));
    }
  }

  /** With colliding ids, a later match loses its entry but keeps its handle
      live: the handle is neither revoked nor held by any remaining entry. */
  lemma CollisionLeaksLaterHandle(s: seq<AttachedFile>, id: nat, i: nat)
    requires DistinctHandles(s)
    requires i < |s| && s[i].id == id && s[i].url.Some?
    requires FirstMatch(s, id) != Some(i)
    ensures Released(s, id) != s[i].url
    ensures s[i].url.value !in Handles(FilterOut(s, id))
  {
    var k := FirstMatch(s, id).value;
    var h := s[i].url.value;
    assert k < i;
    assert s[k].url != s[i].url;
    forall b | b in FilterOut(s, id) && b.url.Some?
      ensures b.url.value != h
    {
      var m :| 0 <= m < |s| && s[m] == b;
      assert m != i;
    }
  }
}
