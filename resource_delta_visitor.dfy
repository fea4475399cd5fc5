/**
 * A resource-delta visitor that writes a one-line description of every delta
 * it visits into a growing text buffer, for debugging: a code for the kind of
 * change, for a content change the letters of its change flags, the resource's
 * path with its version-control information, and a line break.
 *
 * A delta is given by its kind, its flag word and what the resource, its
 * project and the version-control adapter report, as optional strings.
 */
module ResourceDeltaVisitor {

  import opened Optional

  // The delta kinds of the Eclipse resource model.
  const NoChange: int := 0
  const Added: int := 1
  const Removed: int := 2
  const Changed: int := 4

  /** The change flags the visitor has a letter for. */
  datatype Flag =
    | Content | MovedFrom | MovedTo | CopiedFrom | Open | Type | Sync
    | Markers | Replaced | Description | Encoding | LocalChanged | DerivedChanged

  /** The bit of each flag in the delta's flag word (Eclipse's values: distinct single bits). */
  function Mask(k: Flag): bv32
  {
    match k
    case Content => 0x100
    case MovedFrom => 0x1000
    case MovedTo => 0x2000
    case CopiedFrom => 0x800
    case Open => 0x4000
    case Type => 0x8000
    case Sync => 0x10000
    case Markers => 0x20000
    case Replaced => 0x40000
    case Description => 0x80000
    case Encoding => 0x100000
    case LocalChanged => 0x200000
    case DerivedChanged => 0x400000
  }

  /** The letter the visitor writes for each flag. */
  function Letter(k: Flag): char
  {
    match k
    case Content => 'C'
    case MovedFrom => 'F'
    case MovedTo => 'T'
    case CopiedFrom => 'f'
    case Open => 'O'
    case Type => 'Y'
    case Sync => 'S'
    case Markers => 'M'
    case Replaced => 'R'
    case Description => 'D'
    case Encoding => 'E'
    case LocalChanged => 'L'
    case DerivedChanged => 'd'
  }

  /** All bits the table knows. */
  const KnownBits: bv32 := 0x100 | 0x1000 | 0x2000 | 0x800 | 0x4000 | 0x8000 | 0x10000
                         | 0x20000 | 0x40000 | 0x80000 | 0x100000 | 0x200000 | 0x400000

  /** Each flag is one bit of the table's bits, and no two flags share it. */
  lemma MasksAreDistinctBits(j: Flag, k: Flag)
    ensures Mask(k) != 0 && Mask(k) & (Mask(k) - 1) == 0
    ensures Mask(k) & KnownBits == Mask(k)
    ensures j != k ==> Mask(j) & Mask(k) == 0
  {
  }

  /** No two flags share a letter. */
  lemma LetterInjective(j: Flag, k: Flag)
    ensures Letter(j) == Letter(k) ==> j == k
  {
  }

  /**
   * An order in which the flag table can be iterated: each of its flags
   * exactly once. The hash map's actual order is not specified.
   */
  ghost predicate IsTableOrder(order: seq<Flag>)
  {
    && (forall k: Flag :: k in order)
    && (forall i, j :: 0 <= i < j < |order| ==> order[i] != order[j])
  }

  /** The letter of flag `k` if its bit is set in `f`, else nothing. */
  function LetterIfSet(f: bv32, k: Flag): string
  {
    if f & Mask(k) != 0 then [Letter(k)] else ""
  }

  /** The letters written for flag word `f` when the table is iterated in `order`. */
  function FlagLetters(order: seq<Flag>, f: bv32): string
  {
    if order == [] then ""
    else
      var last := order[|order| - 1];
      FlagLetters(order[..|order| - 1], f) + LetterIfSet(f, last)
  }

  /** One more flag of the order adds its letter, if its bit is set, at the end. */
  lemma FlagLettersStep(order: seq<Flag>, f: bv32, i: nat)
    requires i < |order|
    ensures FlagLetters(order[..i + 1], f)
         == FlagLetters(order[..i], f) + LetterIfSet(f, order[i])
  {
    assert order[..i + 1][..i] == order[..i];
  }

  /** The code written for the delta's kind. */
  function KindText(order: seq<Flag>, kind: int, f: bv32): string
  {
    if kind == NoChange then "0"
    else if kind == Changed then
      if f == 0 then "C(0) " else "C(" + FlagLetters(order, f) + ") "
    else if kind == Added then "A "
    else if kind == Removed then "R "
    else "? "
  }

  /** What version control reports on a resource; either part may be missing. */
  datatype VcsInfo = VcsInfo(path: Option<string>, revision: Option<string>)

  /**
   * A changed resource: its portable full path and, when its project is
   * under version control, what the adapter reports on it.
   */
  datatype Resource = Resource(fullPath: string, vcs: Option<VcsInfo>)

  /** A resource delta as the visitor sees it. */
  datatype Delta = Delta(kind: int, flags: bv32, resource: Option<Resource>)

  /** The text written for the resource. */
  function ResourceText(r: Option<Resource>): string
  {
    match r
    case None => "No resource"
    case Some(res) =>
      res.fullPath
      + match res.vcs
        case None => ""
        case Some(info) =>
          (match info.path case None => "" case Some(p) => " " + p)
          + (match info.revision case None => "" case Some(v) => ":" + v)
  }

  /** The whole line one visit writes. */
  function VisitText(order: seq<Flag>, d: Delta): string
  {
    KindText(order, d.kind, d.flags) + ResourceText(d.resource) + "\n"
  }

  class ToStringResourceDeltaVisitor {

    /** The iteration order of the flag table, fixed for this visitor. */
    const order: seq<Flag>

    /** Everything written so far. */
    var sb: string

    constructor (order: seq<Flag>)
      requires IsTableOrder(order)
      ensures this.order == order && sb == ""
    {
      this.order := order;
      sb := "";
    }

    /**
     * Appends the description of one delta; the answer says whether the
     * children of the delta are to be visited, which is so unless the delta
     * reports no change.
     */
    method Visit(delta: Delta) returns (result: bool)
      modifies this
      ensures result <==> delta.kind != NoChange
      ensures sb == old(sb) + VisitText(order, delta)
    {
      result := delta.kind != NoChange;
      AppendKind(delta.kind, delta.flags);
      AppendResource(delta.resource);
      sb := sb + "\n";
    }

    /** Appends the code of the delta's kind and, for a content change, its flag letters. */
    method AppendKind(kind: int, f: bv32)
      modifies this
      ensures sb == old(sb) + KindText(order, kind, f)
    {
      if kind == NoChange {
        sb := sb + "0";
      } else if kind == Changed {
        sb := sb + "C(";
        if f == 0 {
          sb := sb + "0) ";
        } else {
          AppendFlagLetters(f);
          sb := sb + ") ";
        }
      } else if kind == Added {
        sb := sb + "A ";
      } else if kind == Removed {
        sb := sb + "R ";
      } else {
        sb := sb + "? ";
      }
    }

    /** Appends the resource's path and version-control information, or says there is no resource. */
    method AppendResource(resource: Option<Resource>)
      modifies this
      ensures sb == old(sb) + ResourceText(resource)
    {
      match resource {
        case Some(res) =>
          sb := sb + res.fullPath;
          match res.vcs {
            case Some(info) =>
              ghost var atInfo := sb;
              if info.path.Some? {
                sb := sb + " " + info.path.value;
              }
              ghost var atRevision := sb;
              if info.revision.Some? {
                sb := sb + ":" + info.revision.value;
              }
              assert sb == atInfo + (match info.path case None => "" case Some(p) => " " + p)
                                  + (match info.revision case None => "" case Some(v) => ":" + v);
            case None =>
          }
        case None =>
          sb := sb + "No resource";
      }
    }

    /** The loop over the flag table: appends the letter of every flag whose bit is set in `f`. */
    method AppendFlagLetters(f: bv32)
      modifies this
      ensures sb == old(sb) + FlagLetters(order, f)
    {
      var i := 0;
      while i < |order|
        invariant 0 <= i <= |order|
        invariant sb == old(sb) + FlagLetters(order[..i], f)
      {
        FlagLettersStep(order, f, i);
        ghost var before := sb;
        var k := order[i];
        if f & Mask(k) != 0 {
          sb := sb + [Letter(k)];
        }
        assert sb == before + LetterIfSet(f, k);
        i := i + 1;
      }
      assert order[..|order|] == order;
    }

    /** The whole buffer. */
    method ToString() returns (s: string)
      ensures s == sb
    {
      s := sb;
    }
  }

  // ---------------------------------------------------------------------
  // What the written text says.
  // ---------------------------------------------------------------------

  /** A letter is written exactly when it is the letter of a flag of the order whose bit is set. */
  lemma {:induction false} FlagLettersMembers(order: seq<Flag>, f: bv32, c: char)
    ensures c in FlagLetters(order, f) <==> exists k :: k in order && f & Mask(k) != 0 && Letter(k) == c
  {
    if order != [] {
      var init, last := order[..|order| - 1], order[|order| - 1];
      FlagLettersMembers(init, f, c);
      assert forall k :: k in order <==> k in init || k == last;
    }
  }

  /** Over the whole table, the letter of a flag is written exactly when its bit is set. */
  lemma FlagLetterWritten(order: seq<Flag>, f: bv32, k: Flag)
    requires IsTableOrder(order)
    ensures Letter(k) in FlagLetters(order, f) <==> f & Mask(k) != 0
  {
    FlagLettersMembers(order, f, Letter(k));
    forall j | Letter(j) == Letter(k) ensures j == k {
      LetterInjective(j, k);
    }
  }

  /** Every written character is the letter of a set flag. */
  lemma FlagLettersOnlySetFlags(order: seq<Flag>, f: bv32, i: nat)
    requires i < |FlagLetters(order, f)|
    ensures exists k :: f & Mask(k) != 0 && Letter(k) == FlagLetters(order, f)[i]
  {
    FlagLettersMembers(order, f, FlagLetters(order, f)[i]);
  }

  /** The letter of a flag not in the order is not written. */
  lemma LetterOfOtherFlagAbsent(order: seq<Flag>, f: bv32, k: Flag)
    requires k !in order
    ensures Letter(k) !in FlagLetters(order, f)
  {
    FlagLettersMembers(order, f, Letter(k));
    forall j | j in order ensures Letter(j) != Letter(k) {
      LetterInjective(j, k);
    }
  }

  /** With the table iterated once per flag, no letter is written twice. */
  lemma {:induction false} FlagLettersNoRepeat(order: seq<Flag>, f: bv32)
    requires forall i, j :: 0 <= i < j < |order| ==> order[i] != order[j]
    ensures var s := FlagLetters(order, f); forall i, j :: 0 <= i < j < |s| ==> s[i] != s[j]
  {
    if order != [] {
      var init, last := order[..|order| - 1], order[|order| - 1];
      FlagLettersNoRepeat(init, f);
      assert last !in init by {
        forall i | 0 <= i < |init| ensures init[i] != last {
          assert init[i] == order[i];
        }
      }
      LetterOfOtherFlagAbsent(init, f, last);
      var s := FlagLetters(init, f);
      assert FlagLetters(order, f) == s + LetterIfSet(f, last);
    }
  }

  /** Bits the table does not know contribute nothing. */
  lemma {:induction false} UnknownBitsIgnored(order: seq<Flag>, f: bv32)
    ensures FlagLetters(order, f) == FlagLetters(order, f & KnownBits)
  {
    if order != [] {
      var last := order[|order| - 1];
      UnknownBitsIgnored(order[..|order| - 1], f);
      MasksAreDistinctBits(last, last);
      assert (f & KnownBits) & Mask(last) == f & (KnownBits & Mask(last));
    }
  }

  /** A flag word with only unknown bits set gives no letters, and "C() " rather than "C(0) ". */
  lemma OnlyUnknownBits(order: seq<Flag>, f: bv32)
    requires f != 0 && f & KnownBits == 0
    ensures FlagLetters(order, f) == ""
    ensures KindText(order, Changed, f) == "C() "
  {
    UnknownBitsIgnored(order, f);
    EmptyFlagWord(order);
  }

  /** The all-zero word gives no letters. */
  lemma {:induction false} EmptyFlagWord(order: seq<Flag>)
    ensures FlagLetters(order, 0) == ""
  {
    if order != [] {
      EmptyFlagWord(order[..|order| - 1]);
    }
  }

  /** A content change with flags writes its letters between "C(" and ") ", and nothing else. */
  lemma ChangedLine(order: seq<Flag>, d: Delta)
    requires d.kind == Changed && d.flags != 0
    ensures VisitText(order, d) == "C(" + FlagLetters(order, d.flags) + ") " + ResourceText(d.resource) + "\n"
  {
  }

  /** Each kind has its own fixed code at the start of the line, and the line ends with one line break. */
  lemma KindCodes(order: seq<Flag>, d: Delta)
    ensures var t := VisitText(order, d);
      && |t| > 0 && t[|t| - 1] == '\n'
      && (d.kind == NoChange ==> t[..1] == "0")
      && (d.kind == Added ==> t[..2] == "A ")
      && (d.kind == Removed ==> t[..2] == "R ")
      && (d.kind == Changed && d.flags == 0 ==> t[..5] == "C(0) ")
      && (d.kind == Changed ==> t[..2] == "C(")
      && (d.kind !in {NoChange, Added, Removed, Changed} ==> t[..2] == "? ")
  {
  }
}
