/**
 * One normalised invoice row of the payments sheet, with the two columns the
 * loader derives from it (`status` and `valor_total_pago`).
 */
module Records {
  import opened Wrappers

  /** A pandas timestamp, as an ordinal: only its order matters to the dashboard. */
  type Timestamp = int

  /** The `status` column: 'Pago' or 'Pendente'. */
  datatype Status = Paid | Pending

  /**
   * Fields follow the canonical columns: `data_pagamento`, `valor_principal_rs`,
   * `numero_rm`, `correspondente`, `nd_recebida`, `iof`, `tx_contrato`, `irrf`,
   * `cide`, `moeda`, `valor_moeda_origem`, then the derived `status` and
   * `valor_total_pago`. Amounts are exact reals.
   */
  datatype Invoice = Invoice(
    paymentDate: Option<Timestamp>,
    principal: real,
    rm: string,
    counterparty: string,
    invoiceRef: string,
    iof: real,
    contractFee: real,
    irrf: real,
    cide: real,
    currency: string,
    foreignAmount: real,
    status: Status,
    totalPaid: real)

  /** What every row leaving the loader satisfies: the derived columns agree with the rest. */
  predicate WellFormed(r: Invoice) {
    && (r.status == Paid <==> r.paymentDate.Some?)
    && r.totalPaid == r.principal + r.iof + r.contractFee + r.irrf + r.cide
  }

  // Column selectors, passed to the group-by functions.

  function CounterpartyOf(r: Invoice): string { r.counterparty }
  function RmOf(r: Invoice): string { r.rm }
  function CounterpartyCurrencyOf(r: Invoice): (string, string) { (r.counterparty, r.currency) }
  function TotalPaidOf(r: Invoice): real { r.totalPaid }
  function ForeignAmountOf(r: Invoice): real { r.foreignAmount }
  function PrincipalOf(r: Invoice): real { r.principal }
  function IofOf(r: Invoice): real { r.iof }
  function IrrfOf(r: Invoice): real { r.irrf }
  function CideOf(r: Invoice): real { r.cide }
  function ContractFeeOf(r: Invoice): real { r.contractFee }

  /** The row-wise sum of the five charted components (principal, IOF, IRRF, CIDE, contract fee). */
  function ComponentTotalOf(r: Invoice): real {
    r.principal + r.iof + r.irrf + r.cide + r.contractFee
  }
}
