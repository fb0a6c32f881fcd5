/** Status conditions, stamped with the generation they were reported for. */
module Conditions {

  datatype ConditionStatus = True | False | Unknown

  datatype Condition = Condition(status: ConditionStatus, generation: nat)
}
