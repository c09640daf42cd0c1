/**
 * The unary operators of the array calculator (absolute value and the like), written as a
 * function name followed by a parenthesised argument.  The only logic is the syntax check on
 * the infix token vector.
 */
module UnaryOperators {

  /** The items of an infix calculator expression, as far as the syntax check tells them apart. */
  datatype CalculatorItem =
    | LeftParenthesis
    | RightParenthesis
    | Operator(symbol: string)
    | Operand(name: string)

  /** The kind an operator item declares itself to be. */
  datatype OperatorType = Unknown | Unary | Binary

  /**
   * A unary operator at `currentIndex` is well formed when there is room for the operator, the
   * parentheses and an argument, the next item opens a parenthesis, and some item from there on
   * closes one.  Nesting and matching are not examined.
   */
  predicate WellFormedAt(infix: seq<CalculatorItem>, currentIndex: int)
    requires currentIndex >= -1
  {
    |infix| >= currentIndex + 4 &&
    infix[currentIndex + 1] == LeftParenthesis &&
    exists k :: currentIndex + 1 <= k < |infix| && infix[k] == RightParenthesis
  }

  /** The closing item found is always strictly after the opening one. */
  lemma ClosesAfterOpening(infix: seq<CalculatorItem>, currentIndex: int)
    requires currentIndex >= -1
    requires WellFormedAt(infix, currentIndex)
    ensures exists k :: currentIndex + 1 < k < |infix| && infix[k] == RightParenthesis
  {
    var k :| currentIndex + 1 <= k < |infix| && infix[k] == RightParenthesis;
    assert infix[k] != infix[currentIndex + 1];
  }

  /**
   * Any later closing parenthesis satisfies the check, even one that closes an inner group:
   * `op ( ( x )` is accepted although its outer parenthesis is never closed.
   */
  lemma UnbalancedAccepted()
    ensures WellFormedAt([Operator("abs"), LeftParenthesis, LeftParenthesis, Operand("x"), RightParenthesis], 0)
  {
    var infix := [Operator("abs"), LeftParenthesis, LeftParenthesis, Operand("x"), RightParenthesis];
    assert infix[4] == RightParenthesis;
  }

  /** Too short a vector is refused whatever it holds. */
  lemma ShortRefused(infix: seq<CalculatorItem>, currentIndex: int)
    requires currentIndex >= -1 && |infix| < currentIndex + 4
    ensures !WellFormedAt(infix, currentIndex)
  {
  }

  class UnaryOperator {
    var operatorType: OperatorType

    /** A unary operator declares itself as such. */
    constructor ()
      ensures operatorType == Unary
    {
      operatorType := Unary;
    }

    /** A unary operator is never evaluated on its own; it yields 0. */
    method Calculate(newArrayName: string, executionStack: seq<CalculatorItem>, index: int) returns (value: real)
      ensures value == 0.0
    {
      value := 0.0;
    }

    /**
     * The syntax check: the size test, the opening parenthesis, then a linear search for a
     * closing one.  The token vector is a value and is not changed.
     */
    method CheckValidity(infixVector: seq<CalculatorItem>, currentIndex: int) returns (valid: bool)
      requires currentIndex >= -1
      ensures valid <==> WellFormedAt(infixVector, currentIndex)
    {
      if |infixVector| < currentIndex + 4 {
        return false;
      }
      var leftPIndex := currentIndex + 1;
      var index := leftPIndex;
      if infixVector[leftPIndex] == LeftParenthesis {
        while index < |infixVector|
          invariant leftPIndex <= index <= |infixVector|
          invariant forall k :: leftPIndex <= k < index ==> infixVector[k] != RightParenthesis
        {
          if infixVector[index] == RightParenthesis {
            return true;
          }
          index := index + 1;
        }
      }
      return false;
    }
  }
}
