/**
 * The grid configuration record and its validation
 * (scripts/grid_trading_bot/grid_trading/utils/validation.py).
 *
 * Building a `GridConfig` runs one field validator, on `grid_size`; the prices
 * and the quantity are taken as given. The grid strategy reads a record with
 * the same five fields, but its record (the `GridConfig` of the database
 * models) runs no validator at all: it may hold any `grid_size`.
 */
module Validation {
  import opened Wrappers

  datatype GridConfig = GridConfig(
    symbol: string,
    gridSize: int,
    upperPrice: real,
    lowerPrice: real,
    quantityPerOrder: real)

  datatype ValueError = ValueError(message: string)

  const GridSizeMessage: string := "Grid size must be at least 2"

  /** `validate_grid_size`: raise below 2, otherwise hand the value back. */
  function ValidateGridSize(v: int): (r: Result<int, ValueError>)
    ensures r.Success? <==> 2 <= v
    ensures r.Success? ==> r.value == v
    ensures r.Failure? ==> r.error == ValueError(GridSizeMessage)
  {
    if v < 2 then Failure(ValueError(GridSizeMessage)) else Success(v)
  }

  /** Constructing the model: only `grid_size` is checked. */
  function MakeGridConfig(symbol: string, gridSize: int, upperPrice: real, lowerPrice: real, quantityPerOrder: real)
    : (r: Result<GridConfig, ValueError>)
    ensures r.Success? <==> 2 <= gridSize
    ensures r.Success? ==> r.value == GridConfig(symbol, gridSize, upperPrice, lowerPrice, quantityPerOrder)
  {
    var size :- ValidateGridSize(gridSize);
    Success(GridConfig(symbol, size, upperPrice, lowerPrice, quantityPerOrder))
  }

  /** Validating an accepted value again accepts it with the same result. */
  lemma ValidateGridSizeIdempotent(v: int)
    requires ValidateGridSize(v).Success?
    ensures ValidateGridSize(ValidateGridSize(v).value) == ValidateGridSize(v)
  {
  }

  /** 2 is the smallest grid size accepted. */
  lemma SmallestGridSize()
    ensures ValidateGridSize(2) == Success(2)
    ensures ValidateGridSize(1).Failure? && ValidateGridSize(0).Failure? && ValidateGridSize(-1).Failure?
  {
  }

  /** Nothing orders the bounds or checks the quantity: an inverted, zero-quantity grid is accepted. */
  lemma UncheckedPricesAccepted(symbol: string, gridSize: int, upperPrice: real, lowerPrice: real, quantity: real)
    requires 2 <= gridSize && upperPrice <= lowerPrice && quantity <= 0.0
    ensures MakeGridConfig(symbol, gridSize, upperPrice, lowerPrice, quantity).Success?
  {
  }
}
