/** The services the posting engine calls but does not implement. Each is a total function
    supplied by the caller, so the model holds for every behaviour they may have. */
module Collaborators {
  import opened Wrappers
  import opened Domain

  datatype Services = Services(
    /** CompanyConfigService.getCompanyCurrency */
    companyCurrency: Option<Company> -> Option<Currency>,
    /** CurrencyService.getCurrencyConversionRate(from, to, date) */
    conversionRate: (Option<Currency>, Option<Currency>, Option<Date>) -> real,
    /** CurrencyService.getAmountCurrencyConvertedUsingExchangeRate(amount, rate) */
    convertUsingRate: (real, real) -> real,
    /** CurrencyService.getAmountCurrencyConvertedAtDate(from, to, amount, date) */
    convertAtDate: (Option<Currency>, Option<Currency>, real, Option<Date>) -> real,
    /** FiscalPositionAccountService.getAccount(fiscalPosition, account) */
    fiscalAccount: (Option<FiscalPosition>, Option<Account>) -> Option<Account>,
    /** MoveLineToolService.determineDescriptionMoveLine, cut to the field length */
    lineDescription: (Option<Journal>, string, string) -> string,
    /** TaxAccountService.getAccount(tax, company, isPurchase, isFixedAssets) */
    taxAccount: (Tax, Option<Company>, bool, bool) -> Option<Account>,
    /** InvoiceService.getPartnerAccount(invoice, true): the hold-back partner account */
    holdBackAccount: Invoice -> Account,
    /** InvoiceTermService.getLatestInvoiceTermDueDate */
    latestDueDate: Invoice -> Option<Date>,
    /** MoveLineConsolidateService.consolidateMoveLines */
    consolidate: seq<MoveLine> -> seq<MoveLine>,
    /** MoveLineTaxService.getVatSystem(move, line) */
    vatSystemOf: MoveLine -> VatSystem)
}
