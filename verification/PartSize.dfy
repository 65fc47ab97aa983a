/** The part size an S3 upload is cut into, and how many parts that makes. */
module PartSize {
  import opened Streams

  datatype Config = Config(minPart: nat, preferred: nat, maxPart: nat, maxParts: nat) {
    /** What the store's documentation asks of its own settings. */
    ghost predicate Valid() {
      0 < minPart <= preferred <= maxPart && 0 < maxParts
    }
  }

  datatype PartError = PartTooLarge(partSize: nat)

  /** The part size for an upload of `size` bytes; a deferred upload is sized as 0 bytes. */
  function CalcOptimalPartSize(cfg: Config, size: nat): Result<nat, PartError>
    requires cfg.maxParts > 0
  {
    var optimal :=
      if size <= cfg.preferred then cfg.preferred
      else if size <= cfg.preferred * cfg.maxParts then cfg.preferred
      else if size % cfg.maxParts == 0 then size / cfg.maxParts
      else size / cfg.maxParts + 1;
    if optimal > cfg.maxPart then Err(PartTooLarge(optimal)) else Ok(optimal)
  }

  /** An upload fits when full-size parts in the allowed number can hold it. */
  predicate Fits(cfg: Config, size: nat) {
    size <= cfg.maxPart * cfg.maxParts
  }

  lemma RoundUp(size: nat, d: nat)
    requires d > 0
    ensures CeilDiv(size, d) == if size % d == 0 then size / d else size / d + 1
  {
    var q, r := size / d, size % d;
    assert size == q * d + r;
    MulMonotone(q, q, d);
    if r == 0 {
      DivUnique(size + d - 1, d, q, d - 1);
    } else {
      DivUnique(size + d - 1, d, q + 1, r - 1);
    }
  }

  /** The four-way case split is one maximum, and it fails exactly when the upload cannot fit. */
  lemma OptimalPartSize(cfg: Config, size: nat)
    requires cfg.Valid()
    ensures CalcOptimalPartSize(cfg, size).Ok? <==> Fits(cfg, size)
    ensures Fits(cfg, size) ==>
              CalcOptimalPartSize(cfg, size) == Ok(Max(cfg.preferred, CeilDiv(size, cfg.maxParts)))
    ensures !Fits(cfg, size) ==>
              CalcOptimalPartSize(cfg, size) == Err(PartTooLarge(Max(cfg.preferred, CeilDiv(size, cfg.maxParts))))
  {
    RoundUp(size, cfg.maxParts);
    assert cfg.maxParts * cfg.preferred == cfg.preferred * cfg.maxParts;
    assert cfg.maxParts * cfg.maxPart == cfg.maxPart * cfg.maxParts;
    CeilDivLeast(size, cfg.maxParts, cfg.preferred);
    CeilDivLeast(size, cfg.maxParts, cfg.maxPart);
    MulMonotone(1, cfg.maxParts, cfg.preferred);
  }

  lemma CountBound(total: nat, part: nat, maxParts: nat)
    requires part > 0 && maxParts > 0 && CeilDiv(total, maxParts) <= part
    ensures CeilDiv(total, part) <= maxParts
  {
    CeilDivLeast(total, maxParts, part);
    assert maxParts * part == part * maxParts;
    CeilDivLeast(total, part, maxParts);
  }

  lemma CutAtLeast(file: bytes, size: nat, maxParts: nat)
    requires size > 0 && maxParts > 0 && CeilDiv(|file|, maxParts) <= size
    ensures |Cut(file, size)| == CeilDiv(|file|, size) <= maxParts
  {
    CutCount(file, size);
    CountBound(|file|, size, maxParts);
  }

  /** A whole file sent in one request is cut into at most `maxParts` parts, all but the last full. */
  lemma OneRequestFits(cfg: Config, file: bytes, size: nat)
    requires cfg.Valid() && CalcOptimalPartSize(cfg, |file|) == Ok(size)
    ensures cfg.minPart <= size <= cfg.maxPart
    ensures |Cut(file, size)| == CeilDiv(|file|, size) <= cfg.maxParts
    ensures Flatten(Cut(file, size)) == file
    ensures forall i :: 0 <= i < |Cut(file, size)| - 1 ==> |Cut(file, size)[i]| == size
  {
    OptimalPartSize(cfg, |file|);
    CutAtLeast(file, size, cfg.maxParts);
    CutPieces(file, size);
  }
}
