/** Two small functions that every protocol here counts with. */
module Numbers {
  function Max(a: nat, b: nat): nat { if a < b then b else a }

  /** 1 if b holds, else 0. */
  function Ind(b: bool): nat { if b then 1 else 0 }
}
