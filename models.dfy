/** Value types and board constants shared by the run store and the aim scene
    (src/models.ts). */
module Models {

  /** Phase of one aim: sweep the angle, sweep the radius, hold the locked throw. */
  datatype AimPhase = AimAngle | AimRadius | Locked

  /** Scoring band of the board that a throw lands in. */
  datatype Ring = Miss | BullInner | BullOuter | Single | Double | Triple

  /** Phase of a run: still throwing, round won, run lost. */
  datatype RunPhase = Aiming | RoundComplete | RunOver

  /** The literal union type `0 | 1 | 2 | 3` of a throw's multiplier. */
  type Multiplier = m: int | 0 <= m <= 3

  /** One scored throw. The numeric fields are plain numbers in the source;
      the relations between them are documented, not enforced (see Documented). */
  datatype HitResult = HitResult(
    ring: Ring,
    segmentIndex: int,
    number: int,
    multiplier: Multiplier,
    total: int,
    labelText: string)  // `label` in the source; a keyword in Dafny

  /** Segment numbers of the board, clockwise from the top segment. */
  const BoardNumbers: seq<int> :=
    [20, 1, 18, 4, 13, 6, 10, 15, 2, 17, 3, 19, 7, 16, 8, 11, 14, 9, 12, 5]

  /** Every variant of each union type, in declaration order. */
  const AllAimPhases: seq<AimPhase> := [AimAngle, AimRadius, Locked]
  const AllRings: seq<Ring> := [Miss, BullInner, BullOuter, Single, Double, Triple]
  const AllRunPhases: seq<RunPhase> := [Aiming, RoundComplete, RunOver]

  /** No value occurs twice in `s`. */
  predicate Distinct<T(==)>(s: seq<T>) {
    forall i, j :: 0 <= i < j < |s| ==> s[i] != s[j]
  }

  /** The union types have exactly the variants listed above, each once. */
  lemma VariantCounts()
    ensures |AllAimPhases| == 3 && Distinct(AllAimPhases)
    ensures forall p: AimPhase :: p in AllAimPhases
    ensures |AllRings| == 6 && Distinct(AllRings)
    ensures forall g: Ring :: g in AllRings
    ensures |AllRunPhases| == 3 && Distinct(AllRunPhases)
    ensures forall p: RunPhase :: p in AllRunPhases
  {
    forall p: AimPhase ensures p in AllAimPhases {
      match p
      case AimAngle => assert AllAimPhases[0] == p;
      case AimRadius => assert AllAimPhases[1] == p;
      case Locked => assert AllAimPhases[2] == p;
    }
    forall g: Ring ensures g in AllRings {
      match g
      case Miss => assert AllRings[0] == g;
      case BullInner => assert AllRings[1] == g;
      case BullOuter => assert AllRings[2] == g;
      case Single => assert AllRings[3] == g;
      case Double => assert AllRings[4] == g;
      case Triple => assert AllRings[5] == g;
    }
    forall p: RunPhase ensures p in AllRunPhases {
      match p
      case Aiming => assert AllRunPhases[0] == p;
      case RoundComplete => assert AllRunPhases[1] == p;
      case RunOver => assert AllRunPhases[2] == p;
    }
  }

  /** The board has 20 segments, 20 on top, and numbers them with each of
      1..20 at exactly one segment. */
  lemma BoardNumbersPermutation()
    ensures |BoardNumbers| == 20
    ensures BoardNumbers[0] == 20
    ensures forall i :: 0 <= i < |BoardNumbers| ==> 1 <= BoardNumbers[i] <= 20
    ensures forall v :: 1 <= v <= 20 ==> v in BoardNumbers
    ensures Distinct(BoardNumbers)
  {
    var s := BoardNumbers;
    // The segment of each number: an inverse of `s` on 1..20.
    var segment := map[20 := 0, 1 := 1, 18 := 2, 4 := 3, 13 := 4, 6 := 5, 10 := 6,
                       15 := 7, 2 := 8, 17 := 9, 3 := 10, 19 := 11, 7 := 12, 16 := 13,
                       8 := 14, 11 := 15, 14 := 16, 9 := 17, 12 := 18, 5 := 19];
    forall i | 0 <= i < |s| ensures s[i] in segment && segment[s[i]] == i {
    }
    forall v | 1 <= v <= 20 ensures v in s {
      assert v in segment && s[segment[v]] == v;
    }
  }

  /** Decimal text of a natural number, as JavaScript's `String(n)` prints it. */
  function Decimal(n: nat): (s: string)
    ensures |s| >= 1
    ensures forall k :: 0 <= k < |s| ==> '0' <= s[k] <= '9'
  {
    var d := [(('0' as int) + n % 10) as char];
    if n < 10 then d else Decimal(n / 10) + d
  }

  /** A throw on a numbered segment with the given multiplier: the segment
      index is in 0..19, the number is that segment's, the total is the number
      times the multiplier, and the label carries the ring's prefix. */
  predicate OnSegment(h: HitResult, m: Multiplier, prefix: string) {
    && 0 <= h.segmentIndex < |BoardNumbers|
    && h.number == BoardNumbers[h.segmentIndex]
    && h.multiplier == m
    && h.total == h.number * m
    && h.labelText == prefix + Decimal(h.number)
  }

  /** The relations between a HitResult's fields that the source documents
      in its field comments: bulls score 25 and 50, "MISS" scores nothing,
      a segment throw scores number times multiplier and is labelled "T20",
      "D5", "7". */
  predicate Documented(h: HitResult): (b: bool)
    ensures b && (h.ring.Single? || h.ring.Double? || h.ring.Triple?) ==>
      1 <= h.number <= 20 && 1 <= h.multiplier && h.total == h.number * h.multiplier
  {
    BoardNumbersPermutation();
    match h.ring
    case Miss => h.total == 0 && h.labelText == "MISS"
    case BullInner => h.total == 50 && h.labelText == "50"
    case BullOuter => h.total == 25 && h.labelText == "25"
    case Single => OnSegment(h, 1, "")
    case Double => OnSegment(h, 2, "D")
    case Triple => OnSegment(h, 3, "T")
  }

  /** A documented throw scores between 0 and 60 points; 60 is a triple 20. */
  lemma DocumentedTotalBounds(h: HitResult)
    requires Documented(h)
    ensures 0 <= h.total <= 60
    ensures h.total == 60 ==> h.ring == Triple && h.number == 20
  {
    BoardNumbersPermutation();
    if h.ring.Single? || h.ring.Double? || h.ring.Triple? {
      assert 1 <= h.number <= 20;
    }
  }

  /** The highest-scoring throw is documented. */
  lemma TripleTwentyIsDocumented()
    ensures Documented(HitResult(Triple, 0, 20, 3, 60, "T20"))
  {
    assert Decimal(20) == "20";
  }
}
