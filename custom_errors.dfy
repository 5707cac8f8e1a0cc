/**
 * The exception classes of the model (basic/CustomErrors.py) together with the
 * Python built-in exceptions that the modelled code can raise.  An error value
 * is the class of the exception that would be raised.
 */
module CustomErrors {

  datatype ErrorClass =
    | Exception
    // the model's own hierarchy
    | ModelError
    | PortError | PortEnergyError | PortMassError
    | ComponentError
    | BranchError | BranchConnectionError
    | CostFuncError
    | DataClassError | EconomicDataClassError | ExportDataClassError | TechnicalDataClassError
    // Python built-ins raised by the modelled code
    | ValueError | IndexError | KeyError | TypeError | AttributeError | ZeroDivisionError | UnboundLocalError
    // not a Python exception: the point where the modelled code would go on
    // computing with an infinite stream, which the model does not represent
    | InfiniteStream

  /** Number of inheritance steps from the class up to Exception. */
  function Depth(c: ErrorClass): nat
  {
    match c
    case Exception => 0
    case ModelError | CostFuncError | DataClassError => 1
    case ValueError | IndexError | KeyError | TypeError | AttributeError | ZeroDivisionError | UnboundLocalError | InfiniteStream => 1
    case PortError | ComponentError | BranchError => 2
    case EconomicDataClassError | ExportDataClassError | TechnicalDataClassError => 2
    case PortEnergyError | PortMassError | BranchConnectionError => 3
  }

  /** The direct base class of every class except the root. */
  function Parent(c: ErrorClass): (p: ErrorClass)
    requires c != Exception
    ensures Depth(p) + 1 == Depth(c)
  {
    match c
    case ModelError | CostFuncError | DataClassError => Exception
    case ValueError | IndexError | KeyError | TypeError | AttributeError | ZeroDivisionError | UnboundLocalError | InfiniteStream => Exception
    case PortError | ComponentError | BranchError => ModelError
    case PortEnergyError | PortMassError => PortError
    case BranchConnectionError => BranchError
    case EconomicDataClassError | ExportDataClassError | TechnicalDataClassError => DataClassError
  }

  /** `except d:` catches an exception of class c. */
  predicate IsA(c: ErrorClass, d: ErrorClass)
    ensures d == Exception ==> IsA(c, d)
    decreases Depth(c)
  {
    c == d || (c != Exception && IsA(Parent(c), d))
  }

  /** A class is a subclass of another only if it lies at least as deep in the hierarchy. */
  lemma {:induction false} IsADepth(c: ErrorClass, d: ErrorClass)
    requires IsA(c, d)
    ensures Depth(d) <= Depth(c)
    ensures Depth(d) == Depth(c) ==> c == d
    decreases Depth(c)
  {
    if c != d {
      IsADepth(Parent(c), d);
    }
  }

  lemma {:induction false} IsATransitive(a: ErrorClass, b: ErrorClass, c: ErrorClass)
    requires IsA(a, b) && IsA(b, c)
    ensures IsA(a, c)
    decreases Depth(a)
  {
    if a != b {
      IsATransitive(Parent(a), b, c);
    }
  }

  lemma IsAAntisymmetric(a: ErrorClass, b: ErrorClass)
    requires IsA(a, b) && IsA(b, a)
    ensures a == b
  {
    IsADepth(a, b);
    IsADepth(b, a);
  }

  /** BranchConnectionError is a BranchError, which is a ModelError; cost-function errors are not model errors. */
  lemma BranchErrorHierarchy()
    ensures IsA(BranchConnectionError, BranchError) && IsA(BranchError, ModelError)
    ensures IsA(BranchConnectionError, ModelError)
    ensures !IsA(BranchError, BranchConnectionError)
    ensures !IsA(CostFuncError, ModelError) && !IsA(ModelError, PortError)
  {
    IsATransitive(BranchConnectionError, BranchError, ModelError);
    if IsA(BranchError, BranchConnectionError) {
      IsADepth(BranchError, BranchConnectionError);
    }
    if IsA(ModelError, PortError) {
      IsADepth(ModelError, PortError);
    }
  }
}
