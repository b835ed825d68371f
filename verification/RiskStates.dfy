/** The risk controller's stop states (services/risk/master_controller.py). */
module RiskStates {
  datatype RiskState = NORMAL | HALT_NEW_ENTRIES | SAFE_EXIT | FULL_BROKER_DISCONNECT
}
