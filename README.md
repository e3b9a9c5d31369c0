# SuperMercadoJava point-of-sale core in Dafny

This project models the domain logic of the SuperMercadoJava point-of-sale application:

- **The checkout sale.** A `Venda` holds its `ItemVenda` lines and recomputes its totals. `VendaService` runs the checkout: it adds and merges lines, removes them, applies the percentage discount, and finalizes the sale, which takes each line's quantity from stock.
- **Stock rules.** `Produto` adds and removes stock, flags low stock and computes its profit margin. `ProdutoService` keeps the product catalogue: barcodes are unique, products are soft-deleted, and `atualizarEstoque` adjusts stock by a signed amount.
- **The goods receipt.** A `Compra` appends lines and keeps its total. `CompraService.salvarCompra` raises each line's product stock and overwrites the product's cost.
- **Validators and money text.** These are the `Validador` checks and predicates and `FormatadorUtil.formatarMoeda` / `parseMoeda`.
- **The role check** of `SessaoService`.
- **The scanner input parser** of the checkout screen. It reads the `QUANTIDADE*CODIGO` format and is written as a pure function.
- **The supplier and category registers** (`FornecedorService`, `CategoriaService`): required fields, CNPJ uniqueness, soft delete and the active list.

Units and representations:

- Money is integer cents, because every money column has scale 2.
- A discount percentage is an integer number of hundredths of a percent, so 10% is `1000`.
- The profit margin is also in hundredths of a percent.
- `BigDecimal.divide(..., ROUND_HALF_UP)` is `Decimais.ArredondaMeioAcima`: the integer nearest to `n / d`, with a tie going away from zero.
- The `BigDecimal` that `parseMoeda` returns is `Formatador.Decimal(unscaled, escala)`.
- Strings are `seq<char>`, one element per Unicode code point. Where the source measures `String.length()` on text that may hold any char (the password), the model counts UTF-16 code units (`Textos.ComprimentoUtf16`): a char above U+FFFF counts twice. Java's `trim()` strips every char up to U+0020 (`Textos.Trim`). "Null or blank" is `Textos.EmBranco`.

Form of the model:

- Objects whose fields the source updates in place are classes with `modifies` frames:
  - `Produto`, `Venda`, `ItemVenda`, `Compra`, `ItemCompra`;
  - the services `ProdutoService`, `VendaService`, `SessaoService`, `FornecedorService` and `CategoriaService`.
- Value records are datatypes: `Usuario`, `Fornecedor`, `Categoria`.
- The product repository is a `map<int, Produto>` from id to the stored object.
- The supplier and category repositories are a table of rows in id order, plus the next identity value.
- The database's unique indexes appear in two places:
  - as a class invariant (`Valid`);
  - as a save error (`FalhaAoSalvar`) when a save would break one.
- Each state-changing method is specified by a pure step function of the old state, for example `ServicoFornecedor.PassoSalvar` or `ServicoVenda.BaixaEstoque`. The lemmas about that function state what the source promises.

## Model

| member | source | states |
|---|---|---|
| Decimais.MeioAcima | src/main/java/com/supermercado/model/Venda.java:223-226 | half-up division: the result q satisfies q - 1/2 <= a/b < q + 1/2, so a tie goes up |
| Decimais.ArredondaMeioAcima | src/main/java/com/supermercado/model/Produto.java:202-204 | ROUND_HALF_UP division: the magnitude is the half-up quotient of the magnitudes, and the sign is the sign of n/d |
| Decimais.DescontoLimitado | src/main/java/com/supermercado/model/Venda.java:223-226 | for a subtotal >= 0 and a percentage in [0%, 100%], the rounded discount lies in [0, subtotal] |
| Textos.Trim | src/main/java/com/supermercado/controller/MainController.java:230-231 | trim(): the result is a slice of the input with a blank prefix and a blank suffix removed, and it neither starts nor ends with a char <= U+0020 |
| Textos.TrimVazioSseEmBranco | src/main/java/com/supermercado/util/Validador.java:21-27 | `s.trim().isEmpty()` holds exactly when every char of s is <= U+0020 |
| Textos.TrimDeAcolchoado | src/main/java/com/supermercado/util/Validador.java:79-84 | trim() removes exactly the blank padding around a text that neither starts nor ends blank |
| Textos.Digitos | src/main/java/com/supermercado/util/FormatadorUtil.java:25 | the shortest decimal numeral of n: its value is n and it has no leading zero |
| Textos.SubstituiChar | src/main/java/com/supermercado/util/FormatadorUtil.java:70 | String.replace(char, char): same length, and each occurrence of the char is replaced and nothing else |
| Textos.RemoveOcorrencias | src/main/java/com/supermercado/util/FormatadorUtil.java:67 | String.replace(target, ""): never lengthens the text; what it deletes is stated by the two lemmas below |
| Textos.RemoveNenhumaOcorrencia | src/main/java/com/supermercado/util/FormatadorUtil.java:67 | a text in which the target occurs nowhere is left unchanged |
| Textos.RemovePrimeiraOcorrencia | src/main/java/com/supermercado/util/FormatadorUtil.java:67 | the leftmost occurrence is deleted and the scan resumes after it: replace(a + target + b) = a + replace(b) when no occurrence starts inside a |
| Textos.RemoveSemOcorrencia | src/main/java/com/supermercado/util/FormatadorUtil.java:67 | a text in which the target's first char never occurs is left unchanged |
| ModeloProduto.Produto.constructor | src/main/java/com/supermercado/model/Produto.java:41-51 | a new product has no id, stock 0, minimum 0, unit "UN" and ativo true |
| ModeloProduto.Produto.IsEstoqueBaixo | src/main/java/com/supermercado/model/Produto.java:190-192 | isEstoqueBaixo: the stock has reached the minimum (quantidadeEstoque <= estoqueMinimo), a single comparison with no further contract |
| ModeloProduto.Produto.MargemLucro | src/main/java/com/supermercado/model/Produto.java:198-205 | the margin is 0 for a zero cost; for a positive cost it is within half a hundredth of a percent of the exact (venda - custo)/custo x 100, a tie rounded away from zero (the ratio is rounded to 4 decimals before the scaling by 100, so the result is whole hundredths); for a negative cost its magnitude is the half-up quotient and its sign that of the ratio |
| ModeloProduto.MargemCustoZero | src/main/java/com/supermercado/model/Produto.java:199-201 | with no cost the margin is 0, whatever the sale price |
| ModeloProduto.MargemReferencias | src/main/java/com/supermercado/model/Produto.java:202-204 | for a positive cost, selling at twice the cost gives a margin of exactly 100.00%, and selling at cost gives 0 |
| ModeloProduto.Produto.AdicionarEstoque | src/main/java/com/supermercado/model/Produto.java:210-215 | a negative quantity fails and leaves the stock unchanged; otherwise the stock rises by exactly the quantity |
| ModeloProduto.Produto.RemoverEstoque | src/main/java/com/supermercado/model/Produto.java:220-228 | a negative quantity and one above the stock fail, in that order, and leave the stock unchanged; otherwise the stock falls by exactly the quantity |
| ModeloProduto.Adicionar | src/main/java/com/supermercado/model/Produto.java:210-215 | adicionarEstoque on the stock level: a negative quantity is QuantidadeNegativa, otherwise stock + quantity; AdicionarRemoverInversos pairs it with Remover |
| ModeloProduto.Remover | src/main/java/com/supermercado/model/Produto.java:220-228 | removerEstoque on the stock level: a negative quantity, then one above the stock, fail in that order; otherwise stock - quantity; RemoverNaoNegativo states when it succeeds |
| ModeloProduto.RemoverNaoNegativo | src/main/java/com/supermercado/model/Produto.java:220-228 | a removal succeeds iff 0 <= q <= stock, and it never leaves the stock negative |
| ModeloProduto.AdicionarRemoverInversos | src/main/java/com/supermercado/model/Produto.java:210-228 | adding q and then removing q restores the original stock |
| ModeloVenda.ItemVenda.constructor | src/main/java/com/supermercado/model/ItemVenda.java:130-138 | a new line snapshots the product's barcode, name and sale price, with discount 0 and subtotal = price x quantity |
| ModeloVenda.ItemVenda.CalcularSubtotal | src/main/java/com/supermercado/model/ItemVenda.java:143-146 | the subtotal becomes unit price x quantity - discount |
| ModeloVenda.ItemVenda.SetQuantidade | src/main/java/com/supermercado/model/ItemVenda.java:151-154 | only the quantity and the subtotal change, and the subtotal agrees with the new quantity |
| ModeloVenda.ItemVenda.SetDesconto | src/main/java/com/supermercado/model/ItemVenda.java:159-162 | only the discount and the subtotal change, and the subtotal agrees with the new discount |
| ModeloVenda.Venda.constructor | src/main/java/com/supermercado/model/Venda.java:33-62 | a new sale is ABERTA, with no lines, no user, no payment method and all six amounts zero |
| ModeloVenda.Recalcular | src/main/java/com/supermercado/model/Venda.java:217-234 | recalcularTotais on the amounts: subtotal = line sum; a positive percentage sets the half-up discount and 0% keeps the old one; total = subtotal - discount; change = paid - total only when something was paid; its properties are RecalcularIdempotente, RecalcularLimites and PercentualZeroMantemDesconto |
| ModeloVenda.Venda.RecalcularTotais | src/main/java/com/supermercado/model/Venda.java:217-234 | the money fields become Recalcular of the old ones over the line sum (see the lemmas below) |
| ModeloVenda.SomaSubtotaisAcrescenta | src/main/java/com/supermercado/model/Venda.java:218-220 | appending a line adds exactly its subtotal to the line sum |
| ModeloVenda.RecalcularIdempotente | src/main/java/com/supermercado/model/Venda.java:217-234 | recomputing twice over the same lines gives the same fields as recomputing once |
| ModeloVenda.RecalcularLimites | src/main/java/com/supermercado/model/Venda.java:217-228 | with a line sum >= 0 and a percentage in (0%, 100%]: subtotal = line sum, and the discount and the total both lie in [0, subtotal] |
| ModeloVenda.PercentualZeroMantemDesconto | src/main/java/com/supermercado/model/Venda.java:223-226 | a zero percentage keeps the earlier discount: R$ 5,00 off R$ 50,00 survives a later 0% |
| ModeloVenda.ExemploCheckout | src/main/java/com/supermercado/model/Venda.java:217-244 | R$ 50,00 of goods at 10% off, paid with R$ 50,00: discount R$ 5,00, total R$ 45,00, change R$ 5,00 |
| ModeloVenda.Venda.AdicionarItem | src/main/java/com/supermercado/model/Venda.java:199-203 | the line is appended at the end and points back at the sale, and the totals are recomputed over the new list |
| ModeloVenda.RemovePrimeiroUmaVez | src/main/java/com/supermercado/model/Venda.java:208-212 | List.remove takes exactly one copy of the line out and keeps every other line; an absent line changes nothing |
| ModeloVenda.Venda.RemoverItem | src/main/java/com/supermercado/model/Venda.java:208-212 | the first occurrence of the line is removed and the line is detached, and the totals are recomputed |
| ModeloVenda.Venda.Finalizar | src/main/java/com/supermercado/model/Venda.java:239-244 | the payment method, the amount paid and FINALIZADA are set, then the totals are recomputed with the new amount paid |
| ModeloVenda.Venda.Cancelar | src/main/java/com/supermercado/model/Venda.java:249-251 | the status becomes CANCELADA from any status, and nothing else changes |
| ModeloCompra.ItemCompra.constructor | src/main/java/com/supermercado/service/CompraService.java:62-68 | a receipt line holds its product, quantity, unit price and subtotal, and belongs to no receipt yet |
| ModeloCompra.Compra.constructor | src/main/java/com/supermercado/model/Compra.java:30-41 | a new receipt is stamped with the given time, with total 0 and no lines |
| ModeloCompra.Compra.AtualizarTotal | src/main/java/com/supermercado/model/Compra.java:49-53 | the total becomes the sum of the line subtotals, whatever it was before (so a second call changes nothing) |
| ModeloCompra.Compra.AdicionarItem | src/main/java/com/supermercado/model/Compra.java:43-47 | the line is appended and points back at the receipt, and the total becomes the old line sum plus the new line's subtotal |
| ModeloCompra.SomaSubtotaisCompraAcrescenta | src/main/java/com/supermercado/model/Compra.java:49-53 | appending a line adds exactly its subtotal to the total |
| Validador.ValidarProduto | src/main/java/com/supermercado/util/Validador.java:16-52 | validarProduto: null, blank barcode, blank name, no category, cost < 0, sale <= 0, sale < cost, stock < 0, minimum < 0, tried in this order, the first failing one reported; pinned by the two lemmas below |
| Validador.ValidarProdutoPrimeiraFalha | src/main/java/com/supermercado/util/Validador.java:16-52 | a product passes iff it meets all eight requirements; otherwise the error is that of the first unmet requirement in source order, with all earlier ones met |
| Validador.VendaAbaixoDoCustoSoComPrecosValidos | src/main/java/com/supermercado/util/Validador.java:33-43 | "sale below cost" is reported only when both prices passed their own checks; a negative cost is reported as such |
| Validador.ValidarVenda | src/main/java/com/supermercado/util/Validador.java:57-73 | validarVenda: null sale, no user, no lines, stored total <= 0, in this order; ValidarVendaAceita states when it passes |
| Validador.ValidarVendaAceita | src/main/java/com/supermercado/util/Validador.java:57-73 | a sale passes iff it has a user, at least one line and a positive stored total |
| Validador.IsCodigoBarrasValido | src/main/java/com/supermercado/util/Validador.java:78-93 | isCodigoBarrasValido: non-blank, and the trimmed text is 8 to 13 ASCII digits; CodigoBarrasAcolchoado gives the independent padded-run form |
| Validador.CodigoBarrasAcolchoado | src/main/java/com/supermercado/util/Validador.java:78-93 | a barcode is accepted iff it is a run of 8 to 13 ASCII digits with blank padding around it; there is no check digit |
| Validador.IsEmailValido | src/main/java/com/supermercado/util/Validador.java:98-105 | isEmailValido: non-blank, split at the first '@', local part over [A-Za-z0-9+_.-], non-empty domain without line terminators; EmailFormato shows any '@' split gives the same verdict |
| Validador.EmailFormato | src/main/java/com/supermercado/util/Validador.java:98-105 | an e-mail is accepted iff it splits as a non-empty local part over [A-Za-z0-9+_.-], then '@', then a non-empty domain without line terminators |
| Validador.IsUsernameValido | src/main/java/com/supermercado/util/Validador.java:110-118 | isUsernameValido: non-blank and the untrimmed text is 3 to 50 chars of [A-Za-z0-9_]; UsernameSoPadrao shows the blank check is implied |
| Validador.UsernameSoPadrao | src/main/java/com/supermercado/util/Validador.java:110-118 | a username is accepted iff it is 3 to 50 chars of [A-Za-z0-9_], untrimmed, so " abc" is rejected |
| Textos.ComprimentoUtf16 | src/main/java/com/supermercado/util/Validador.java:124 | String.length(): between |s| and 2|s|; exactly |s| when no char is above U+FFFF and 2|s| when every char is |
| Textos.ComprimentoUtf16Concat | src/main/java/com/supermercado/util/Validador.java:124 | the UTF-16 length of a concatenation is the sum of the lengths |
| Validador.IsSenhaValida | src/main/java/com/supermercado/util/Validador.java:123-129 | isSenhaValida: present and at least 6 UTF-16 code units long, blanks included (the rule is stated by the two lemmas below) |
| Validador.SenhaPorCaracteres | src/main/java/com/supermercado/util/Validador.java:123-129 | for every text: six chars always pass, fewer than three never do, and without chars above U+FFFF a password passes iff it has six chars or more; a missing one fails |
| Validador.SenhaSoComprimento | src/main/java/com/supermercado/util/Validador.java:123-129 | appending to a valid password keeps it valid; three chars above U+FFFF (six code units) pass; six blanks pass and five fail |
| Formatador.Agrupa | src/main/java/com/supermercado/util/FormatadorUtil.java:21-26 | the "#,##0" grouping: only digits and dots; n > 0 digits become n + (n - 1) / 3 chars, and a char is a '.' exactly when it stands at a multiple of 4 from the right end, so a dot precedes every group of three counted from the right |
| Formatador.AgrupaSemPontos | src/main/java/com/supermercado/util/FormatadorUtil.java:21-26 | deleting the grouping dots gives the digits back |
| Formatador.Centavos | src/main/java/com/supermercado/util/FormatadorUtil.java:25 | exactly two decimal digits, whose value is the cents of the amount |
| Formatador.FormatarMoeda | src/main/java/com/supermercado/util/FormatadorUtil.java:31-36 | formatarMoeda: "R$ 0,00" for null, otherwise "R$ ", a '-' for a negative amount, the grouped reais (Agrupa), ',' and the two decimals (Centavos); ParseFormatarPequeno and ParseFormatarGrande relate it to parseMoeda |
| Formatador.MagnitudeSimetrica | src/main/java/com/supermercado/util/FormatadorUtil.java:31-36 | the printed magnitude does not depend on the sign |
| Formatador.FormatarNegativo | src/main/java/com/supermercado/util/FormatadorUtil.java:31-36 | a negative amount prints as "R$ -" followed by the text of its magnitude |
| Formatador.SoNumerico | src/main/java/com/supermercado/util/FormatadorUtil.java:73 | replaceAll("[^\\d.]", ""): only digits and dots are left, and never more chars than before |
| Formatador.SoNumericoUmChar | src/main/java/com/supermercado/util/FormatadorUtil.java:73 | a single char is kept iff it is an ASCII digit or a dot, and deleted otherwise |
| Formatador.SoNumericoDescarta | src/main/java/com/supermercado/util/FormatadorUtil.java:73 | a text with no digit and no dot is deleted entirely |
| Formatador.SoNumericoMantem | src/main/java/com/supermercado/util/FormatadorUtil.java:73 | a text of digits and dots is left unchanged |
| Formatador.LerDecimal | src/main/java/com/supermercado/util/FormatadorUtil.java:75-79 | new BigDecimal(s) on digits and dots: never negative |
| Formatador.LerDecimalNumeral | src/main/java/com/supermercado/util/FormatadorUtil.java:75-76 | digits, '.', digits (with at least one digit) read as the value of all the digits, at the scale of the fraction |
| Formatador.LerDecimalInteiro | src/main/java/com/supermercado/util/FormatadorUtil.java:75 | a non-empty numeral without a dot reads as its value at scale 0 |
| Formatador.LerDecimalSemDigitos | src/main/java/com/supermercado/util/FormatadorUtil.java:75-79 | "" and "." are not numbers (NumberFormatException) |
| Formatador.LerDecimalExemplos | src/main/java/com/supermercado/util/FormatadorUtil.java:75 | "12" reads as 12 at scale 0, and "12.5" as 125 at scale 1 |
| Formatador.LerDecimalDoisPontos | src/main/java/com/supermercado/util/FormatadorUtil.java:75-79 | a text with two dots is not a number (NumberFormatException) |
| Formatador.ParseMoeda | src/main/java/com/supermercado/util/FormatadorUtil.java:61-80 | parseMoeda never returns a negative value |
| Formatador.Limpa | src/main/java/com/supermercado/util/FormatadorUtil.java:67-73 | the three normalisation steps always leave only digits and dots |
| Formatador.LimpaDeFormatado | src/main/java/com/supermercado/util/FormatadorUtil.java:31-73 | a formatted amount is not blank, and its normalisation is the grouped reais, '.', then the cents |
| Formatador.LimpaComCifrao | src/main/java/com/supermercado/util/FormatadorUtil.java:62-67 | behind "R$ ", removing "R$" and trimming leave exactly the amount's text |
| Formatador.LimpaSemCifrao | src/main/java/com/supermercado/util/FormatadorUtil.java:62-73 | a plain numeral typed without "R$" is not blank, and only the comma step and the filter act on it |
| Formatador.VirgulaDecimal | src/main/java/com/supermercado/util/FormatadorUtil.java:67-79 | "12,50"-style input (no grouping) reads as the decimal it writes, at the scale of its fraction |
| Formatador.ParseFormatarPequeno | src/main/java/com/supermercado/util/FormatadorUtil.java:31-80 | below R$ 1.000,00 the text of an amount reads back as its magnitude in cents at scale 2; the sign is dropped |
| Formatador.LerReaisECentavos | src/main/java/com/supermercado/util/FormatadorUtil.java:75-79 | below one thousand reais, the normalised text reads as the amount in cents at scale 2 |
| Formatador.ParseFormatarGrande | src/main/java/com/supermercado/util/FormatadorUtil.java:67-79 | as written: from R$ 1.000,00 up, the text of an amount reads back as 0 |
| Formatador.MilharComVirgula | src/main/java/com/supermercado/util/FormatadorUtil.java:70-79 | as written: any "d.ddd,dd" text (a thousands dot and a decimal comma) reads as 0 |
| Formatador.LimpaCorrigida | src/main/java/com/supermercado/util/FormatadorUtil.java:66-73 | corrected normalisation, with the thousands dots removed before the comma becomes the decimal point: only digits and dots are left |
| Formatador.ParseMoedaCorrigida | src/main/java/com/supermercado/util/FormatadorUtil.java:61-80 | corrected parseMoeda: never negative |
| Formatador.LimpaCorrigidaDeFormatado | src/main/java/com/supermercado/util/FormatadorUtil.java:31-73 | the corrected normalisation of a formatted amount is the ungrouped reais, '.', then the cents |
| Formatador.LerCorrigidaDeFormatado | src/main/java/com/supermercado/util/FormatadorUtil.java:75-79 | that text reads as the amount's magnitude in cents at scale 2 |
| Formatador.ParseFormatarCorrigido | src/main/java/com/supermercado/util/FormatadorUtil.java:31-80 | corrected round trip: every formatted amount, of any size, reads back as its magnitude in cents at scale 2 |
| ServicoSessao.SessaoService.constructor | src/main/java/com/supermercado/service/SessaoService.java:11-17 | nobody is logged in at first |
| ServicoSessao.SessaoService.SetUsuarioLogado | src/main/java/com/supermercado/service/SessaoService.java:11-13 | the given user (or nobody) becomes the logged-in user |
| ServicoSessao.SessaoService.GetUsuarioLogado | src/main/java/com/supermercado/service/SessaoService.java:15-17 | returns the user last set, and changes nothing |
| ServicoSessao.SessaoService.TemPermissao | src/main/java/com/supermercado/service/SessaoService.java:19-33 | false when nobody is logged in; true for an administrator, even with an empty list; otherwise true iff the user's profile is in the list |
| ServicoSessao.SessaoService.Logout | src/main/java/com/supermercado/service/SessaoService.java:35-37 | afterwards nobody is logged in, so every role check is false |
| EntradaCaixa.Partes | src/main/java/com/supermercado/controller/MainController.java:244 | the pieces between occurrences of the separator, with one more piece than there are separators |
| EntradaCaixa.PartesSemSeparador | src/main/java/com/supermercado/controller/MainController.java:244 | no piece contains the separator |
| EntradaCaixa.JuntaPartes | src/main/java/com/supermercado/controller/MainController.java:244 | joining the pieces with the separator gives the text back |
| EntradaCaixa.PartesJunta | src/main/java/com/supermercado/controller/MainController.java:244 | splitting a join of separator-free pieces gives the pieces back |
| EntradaCaixa.SemVaziasFinais | src/main/java/com/supermercado/controller/MainController.java:244-245 | split's trailing empty strings are dropped: a prefix of the pieces that ends non-empty, with only empty pieces cut |
| EntradaCaixa.Split | src/main/java/com/supermercado/controller/MainController.java:243-245 | String.split on one char: the whole text as one piece when the char is absent, otherwise the pieces (Partes) with the trailing empty ones dropped (SemVaziasFinais) |
| EntradaCaixa.ParseInt | src/main/java/com/supermercado/controller/MainController.java:246 | Integer.parseInt: any value it returns is in the 32-bit int range |
| EntradaCaixa.ToString | src/main/java/com/supermercado/controller/MainController.java:246 | Integer.toString: non-empty, with no '*', and neither starting nor ending blank |
| EntradaCaixa.ParseIntToString | src/main/java/com/supermercado/controller/MainController.java:246 | parseInt reads back every int that toString prints |
| EntradaCaixa.ParseIntEstouro | src/main/java/com/supermercado/controller/MainController.java:246 | a numeral above the int range is rejected (NumberFormatException), not wrapped around |
| EntradaCaixa.ParseIntSemDigitos | src/main/java/com/supermercado/controller/MainController.java:246 | "", "-" and "+" are not numbers |
| EntradaCaixa.LerEntrada | src/main/java/com/supermercado/controller/MainController.java:229-261 | any request that reaches the sale service has a quantity in [1, MAX_INT] |
| EntradaCaixa.Pedir | src/main/java/com/supermercado/controller/MainController.java:256-261 | the service is called iff the quantity parsed and is > 0, and then with that code and quantity |
| EntradaCaixa.EntradaVazia | src/main/java/com/supermercado/controller/MainController.java:230-236 | the empty-code warning is shown iff the code field is blank |
| EntradaCaixa.ComEstrela | src/main/java/com/supermercado/controller/MainController.java:243-251 | with a '*': two pieces give (trimmed right piece, parseInt of the trimmed left one), and any other count gives the format warning |
| EntradaCaixa.Multiplicador | src/main/java/com/supermercado/controller/MainController.java:243-259 | "Q*CODE": the code with quantity Q when Q > 0, the non-positive warning otherwise; the quantity field is ignored |
| EntradaCaixa.EstrelaInicial | src/main/java/com/supermercado/controller/MainController.java:244-246 | "*CODE": the empty left piece is not a number, so the result is the invalid-quantity error |
| EntradaCaixa.SemCodigo | src/main/java/com/supermercado/controller/MainController.java:244-251 | "Q*", "Q**" and so on: the trailing empty pieces are dropped, one piece is left, and the format warning is shown |
| EntradaCaixa.SemCodigoExemplos | src/main/java/com/supermercado/controller/MainController.java:244-251 | "3*" and "3**" both give the format warning |
| EntradaCaixa.TresPartes | src/main/java/com/supermercado/controller/MainController.java:245-251 | "A*B*C" gives the format warning |
| EntradaCaixa.CodigoEmBrancoAceito | src/main/java/com/supermercado/controller/MainController.java:244-261 | "Q* *": the blank middle piece survives the split and trims to an empty code, which is passed to the sale service |
| EntradaCaixa.QuantidadePadrao | src/main/java/com/supermercado/controller/MainController.java:238-239 | without a '*' and with an empty quantity field, the quantity is 1 |
| EntradaCaixa.QuantidadeDoCampo | src/main/java/com/supermercado/controller/MainController.java:253-259 | without a '*', the quantity field is read as an int: accepted when > 0, the non-positive warning otherwise |
| ServicoProduto.ProdutoService.constructor | src/main/java/com/supermercado/service/ProdutoService.java:29 | an empty repository that satisfies the invariant |
| ServicoProduto.ProdutoService.ProdutoComCodigo | src/main/java/com/supermercado/model/Produto.java:25 | the barcode is unique, so every stored row with that barcode is one and the same product |
| ServicoProduto.ProdutoService.BuscarPorCodigoBarras | src/main/java/com/supermercado/service/ProdutoService.java:139-141 | empty iff no stored product has the barcode; otherwise that unique product |
| ServicoProduto.ProdutoService.Save | src/main/java/com/supermercado/service/ProdutoService.java:51 | repository save: succeeds iff the id is new or stored and no other row holds the barcode; on success the row is stored; on failure nothing changes |
| ServicoProduto.ProdutoService.Salvar | src/main/java/com/supermercado/service/ProdutoService.java:39-71 | a null product fails in the log; then the validation error; then a new product with a used barcode is refused; otherwise the repository's verdict; nothing changes on failure |
| ServicoProduto.ProdutoService.Atualizar | src/main/java/com/supermercado/service/ProdutoService.java:77-102 | validation runs before the null-id check; then the repository's verdict; nothing changes on failure |
| ServicoProduto.ProdutoService.Desativar | src/main/java/com/supermercado/service/ProdutoService.java:108-127 | succeeds iff the id is stored, and then only that product's ativo becomes false; otherwise the error is NaoEncontrado |
| ServicoProduto.ProdutoService.AtualizarEstoque | src/main/java/com/supermercado/service/ProdutoService.java:172-191 | the stock levels become those of PassoEstoque, and the outcome is its outcome |
| ServicoProduto.Ajustar | src/main/java/com/supermercado/service/ProdutoService.java:182-186 | the signed dispatch: delta > 0 is Adicionar(delta), any other delta is Remover(-delta); AjustarSinal states its effect |
| ServicoProduto.PassoEstoque | src/main/java/com/supermercado/service/ProdutoService.java:172-191 | atualizarEstoque on the table of stock levels: a null id, then an unknown id, fail with the table unchanged; otherwise Ajustar on that product's stock; PassoEstoqueSoAlvo states its effect |
| ServicoProduto.AjustarSinal | src/main/java/com/supermercado/service/ProdutoService.java:182-186 | a delta > 0 adds and any other delta removes its magnitude: the stock moves by exactly delta or the error is EstoqueInsuficiente; a delta of 0 changes nothing |
| ServicoProduto.PassoEstoqueSoAlvo | src/main/java/com/supermercado/service/ProdutoService.java:172-191 | only the targeted product's stock changes, by exactly delta and only on success; a null or unknown id changes nothing |
| ServicoVenda.IndiceComCodigo | src/main/java/com/supermercado/service/VendaService.java:81-83 | the first line with that barcode (no earlier line has it), or none when no line has it |
| ServicoVenda.Baixas | src/main/java/com/supermercado/service/VendaService.java:158-160 | the stock movements, one per line in order: the line's product id and quantity |
| ServicoVenda.BaixaEstoque | src/main/java/com/supermercado/service/VendaService.java:158-160 | the decrement loop on the stock table: each line in order is PassoEstoque with the negated quantity, stopping at the first failure; BaixaEstoqueSucesso states when it succeeds and by how much each stock falls |
| ServicoVenda.BaixaEstoqueUmPasso | src/main/java/com/supermercado/service/VendaService.java:158-160 | one turn of the loop: a failing step stops it, and a passing one continues from the new stock |
| ServicoVenda.BaixaEstoqueSucesso | src/main/java/com/supermercado/service/VendaService.java:158-160 | with quantities >= 0, the decrement succeeds iff every line names a stored product and no product is asked for more than its stock, summed over its lines; each stock then falls by exactly that sum |
| ServicoVenda.VendaService.constructor | src/main/java/com/supermercado/service/VendaService.java:32 | the sale service uses the given product service |
| ServicoVenda.VendaService.CriarNovaVenda | src/main/java/com/supermercado/service/VendaService.java:41-49 | a fresh sale, ABERTA, for the given user, with no lines and all amounts zero |
| ServicoVenda.VendaService.AdicionarItem | src/main/java/com/supermercado/service/VendaService.java:54-102 | the error order is not open, unknown barcode, inactive, quantity above stock; a merge re-checks stock against the merged quantity and leaves the sale's totals stale; a new barcode appends a snapshot line, leaves every earlier line unchanged, and recomputes; every error leaves sale and lines unchanged; the quantity is not checked to be positive |
| ServicoVenda.VendaService.RemoverItem | src/main/java/com/supermercado/service/VendaService.java:107-116 | a sale that is not open is refused and unchanged; otherwise Venda.removerItem |
| ServicoVenda.VendaService.AplicarDesconto | src/main/java/com/supermercado/service/VendaService.java:121-132 | fails iff the percentage is outside [0%, 100%], and then the totals are unchanged; otherwise the percentage is stored and the totals recomputed; the status is not checked |
| ServicoVenda.VendaService.FinalizarVenda | src/main/java/com/supermercado/service/VendaService.java:138-174 | the validation error first; then the payment is compared with the stored total (before the recompute); on both errors nothing changes; otherwise the sale is closed and the stock taken line by line, with no ABERTA guard |
| ServicoVenda.VendaService.Fechar | src/main/java/com/supermercado/service/VendaService.java:152-160 | the sale becomes FINALIZADA with recomputed totals, and the stock levels become those of BaixaEstoque over its lines |
| ServicoVenda.VendaService.BaixarEstoque | src/main/java/com/supermercado/service/VendaService.java:158-160 | the loop leaves exactly the stock levels and the outcome of BaixaEstoque |
| ServicoVenda.VendaService.CancelarVenda | src/main/java/com/supermercado/service/VendaService.java:180-187 | the sale becomes CANCELADA from any status |
| ServicoCompra.Entradas | src/main/java/com/supermercado/service/CompraService.java:62-68 | one entry per line, in order: product, quantity, unit price |
| ServicoCompra.PrimeiraNegativa | src/main/java/com/supermercado/service/CompraService.java:62-64 | the first line with a negative quantity; every line before it is non-negative |
| ServicoCompra.UltimoPrecoDaUltimaLinha | src/main/java/com/supermercado/service/CompraService.java:66-67 | the last line wins: a product's cost ends at the price of its last line, and stays as it was when no line names it |
| ServicoCompra.SomaQtdSemLinhas | src/main/java/com/supermercado/service/CompraService.java:62-64 | a product that no line names gets no stock |
| ServicoCompra.DuasLinhasMesmoProduto | src/main/java/com/supermercado/service/CompraService.java:62-68 | lines of 5 and 7 units for one product add 12, and its cost ends at the second price |
| ServicoCompra.CustoSemRevalidacao | src/main/java/com/supermercado/service/CompraService.java:66-67 | the cost is not re-validated, so it can end above the sale price |
| ServicoCompra.SalvarCompra | src/main/java/com/supermercado/service/CompraService.java:46-84 | the errors come in this order: no supplier (failing in the log), no user, no lines, each with no stock change; otherwise every product ends in the state the lines up to the first negative one leave it in; on success the total is the line sum, and on every failure the total keeps its old value |
| ServicoCompra.EntrarLinhas | src/main/java/com/supermercado/service/CompraService.java:62-68 | the loop applies the lines in order and stops at the first negative quantity, with the earlier lines applied |
| ServicoCompra.EntrarLinha | src/main/java/com/supermercado/service/CompraService.java:62-68 | one line: adicionarEstoque, then the cost overwrite; a negative quantity changes nothing |
| ServicoFornecedor.BuscaCnpj | src/main/java/com/supermercado/service/FornecedorService.java:50-55 | findByCnpj: empty iff no stored row has the CNPJ, otherwise a stored row with it |
| ServicoFornecedor.Posicao | src/main/java/com/supermercado/service/FornecedorService.java:106-108 | findById: empty iff no row has the id, otherwise the position of a row with it |
| ServicoFornecedor.Gravar | src/main/java/com/supermercado/service/FornecedorService.java:58 | the repository's save with the unique CNPJ index: a new row gets the next id unless its CNPJ is stored; a row with an id replaces the stored row unless another row holds its CNPJ or the id is unknown |
| ServicoFornecedor.PassoSalvar | src/main/java/com/supermercado/service/FornecedorService.java:38-76 | salvar: blank name, blank CNPJ, then a new supplier with a stored CNPJ are refused, in that order; otherwise Gravar; pinned by SalvarValida, SalvarNovoCnpj and SalvarComIdSemChecagem |
| ServicoFornecedor.PassoAtualizar | src/main/java/com/supermercado/service/FornecedorService.java:82-97 | atualizar: a null id is refused, otherwise Gravar without validation; pinned by AtualizarSemValidacao |
| ServicoFornecedor.PassoDesativar | src/main/java/com/supermercado/service/FornecedorService.java:103-122 | desativar: an unknown id is NaoEncontrado, otherwise the row is saved again with ativo false; pinned by DesativarEfeito |
| ServicoFornecedor.GravarPreservaValida | src/main/java/com/supermercado/model/Fornecedor.java:11-21 | every successful save keeps ids increasing and CNPJs unique |
| ServicoFornecedor.GravarEfeito | src/main/java/com/supermercado/service/FornecedorService.java:58 | a new row is appended under a fresh id; a row with an id replaces exactly the stored row with that id |
| ServicoFornecedor.SalvarValida | src/main/java/com/supermercado/service/FornecedorService.java:41-47 | a blank name is refused first, then a blank CNPJ (both iff), and a success has both fields non-blank |
| ServicoFornecedor.SalvarNovoCnpj | src/main/java/com/supermercado/service/FornecedorService.java:50-58 | a new supplier is refused with CnpjJaCadastrado iff its CNPJ is stored, and saved iff it is not |
| ServicoFornecedor.SalvarComIdSemChecagem | src/main/java/com/supermercado/service/FornecedorService.java:50-58 | with an id the service does not check the CNPJ, and a clash fails only as a repository error |
| ServicoFornecedor.AtualizarSemValidacao | src/main/java/com/supermercado/service/FornecedorService.java:82-97 | a null id is refused; otherwise the row is replaced with no name or CNPJ check |
| ServicoFornecedor.DesativarEfeito | src/main/java/com/supermercado/service/FornecedorService.java:103-122 | succeeds iff the id is stored (otherwise NaoEncontrado); only that row's ativo is cleared, and no id is handed out |
| ServicoFornecedor.DesativarIdempotente | src/main/java/com/supermercado/service/FornecedorService.java:103-122 | deactivating twice leaves the same table as deactivating once |
| ServicoFornecedor.Ativos | src/main/java/com/supermercado/service/FornecedorService.java:134-138 | exactly the rows with ativo set |
| ServicoFornecedor.AtivosConcat | src/main/java/com/supermercado/service/FornecedorService.java:134-138 | the filter keeps repository order: it distributes over concatenation |
| ServicoFornecedor.DesativarSaiDosAtivos | src/main/java/com/supermercado/service/FornecedorService.java:103-138 | after desativar the active list is the old one without that supplier |
| ServicoFornecedor.FornecedorService.constructor | src/main/java/com/supermercado/service/FornecedorService.java:28 | an empty, valid table whose ids start at 1 |
| ServicoFornecedor.FornecedorService.Save | src/main/java/com/supermercado/service/FornecedorService.java:58 | the repository's save: the new state and the result are those of Gravar, and the table stays valid |
| ServicoFornecedor.FornecedorService.Salvar | src/main/java/com/supermercado/service/FornecedorService.java:38-76 | the state and result are those of PassoSalvar (see SalvarValida and SalvarNovoCnpj), and the table stays valid |
| ServicoFornecedor.FornecedorService.Atualizar | src/main/java/com/supermercado/service/FornecedorService.java:82-97 | the state and result are those of PassoAtualizar, and the table stays valid |
| ServicoFornecedor.FornecedorService.Desativar | src/main/java/com/supermercado/service/FornecedorService.java:103-122 | the state is that of PassoDesativar; succeeds iff it does, and otherwise fails with NaoEncontrado |
| ServicoFornecedor.FornecedorService.ListarAtivos | src/main/java/com/supermercado/service/FornecedorService.java:134-138 | a supplier is listed iff it is stored and active |
| ServicoCategoria.Posicao | src/main/java/com/supermercado/service/CategoriaService.java:94-96 | findById: empty iff no row has the id, otherwise the position of a row with it |
| ServicoCategoria.Gravar | src/main/java/com/supermercado/service/CategoriaService.java:46 | the repository's save with the unique name index: a new row gets the next id unless its name is stored; a row with an id replaces the stored row unless another row holds its name or the id is unknown |
| ServicoCategoria.PassoSalvar | src/main/java/com/supermercado/service/CategoriaService.java:38-64 | salvar: only a blank name is refused, otherwise Gravar; pinned by SalvarSoChecaNome and SalvarNova |
| ServicoCategoria.PassoAtualizar | src/main/java/com/supermercado/service/CategoriaService.java:70-85 | atualizar: a null id is refused, otherwise Gravar; pinned by AtualizarSemValidacao |
| ServicoCategoria.PassoDesativar | src/main/java/com/supermercado/service/CategoriaService.java:91-110 | desativar: an unknown id is NaoEncontrada, otherwise the row is saved again with ativo false; pinned by DesativarEfeito |
| ServicoCategoria.GravarPreservaValida | src/main/java/com/supermercado/model/Categoria.java:20-21 | every successful save keeps ids increasing and names unique |
| ServicoCategoria.SalvarSoChecaNome | src/main/java/com/supermercado/service/CategoriaService.java:38-46 | a blank name is refused iff it is blank; otherwise the outcome is the repository's, so a duplicate name fails only as a save error |
| ServicoCategoria.SalvarNova | src/main/java/com/supermercado/service/CategoriaService.java:38-46 | a new, named category whose name is unused is appended under a fresh id |
| ServicoCategoria.AtualizarSemValidacao | src/main/java/com/supermercado/service/CategoriaService.java:70-85 | a null id is refused; otherwise the row is replaced with no name check |
| ServicoCategoria.DesativarEfeito | src/main/java/com/supermercado/service/CategoriaService.java:91-110 | succeeds iff the id is stored (otherwise NaoEncontrada); only that row's ativo is cleared |
| ServicoCategoria.DesativarIdempotente | src/main/java/com/supermercado/service/CategoriaService.java:91-110 | deactivating twice leaves the same table as deactivating once |
| ServicoCategoria.CategoriaService.constructor | src/main/java/com/supermercado/service/CategoriaService.java:28 | an empty, valid table whose ids start at 1 |
| ServicoCategoria.CategoriaService.Save | src/main/java/com/supermercado/service/CategoriaService.java:46 | the repository's save: the new state and the result are those of Gravar, and the table stays valid |
| ServicoCategoria.CategoriaService.Salvar | src/main/java/com/supermercado/service/CategoriaService.java:38-64 | the state and result are those of PassoSalvar, and the table stays valid |
| ServicoCategoria.CategoriaService.Atualizar | src/main/java/com/supermercado/service/CategoriaService.java:70-85 | the state and result are those of PassoAtualizar, and the table stays valid |
| ServicoCategoria.CategoriaService.Desativar | src/main/java/com/supermercado/service/CategoriaService.java:91-110 | the state is that of PassoDesativar; succeeds iff it does, and otherwise fails with NaoEncontrada |


## Left out

- The audit log (`LogService`, `usuarioService.getUsuarioLogado()` inside the services) is not modelled. It records actions and does not affect the outcome, except for the null dereferences modelled as `ProdutoNuloNoLog` and `FornecedorNuloNoLog`.
- `@Transactional` rollback is not modelled. A stock decrement that fails halfway through `finalizarVenda` leaves the earlier decrements and the closed sale in the model, as the code does before the exception. In the application, Spring rolls the transaction back when the exception leaves the `@Transactional` method, and that rollback undoes the database writes.
- Timestamps (`LocalDateTime.now()`, `@PrePersist`) are not modelled. The receipt's date is a parameter of the constructor.
- JPA and Spring Data are replaced by in-memory tables.
- A save with an id that is not stored fails with `FalhaAoSalvar`. JPA's `merge` might insert such a row instead.
- Queries the screens use (`buscarPorId`, `listarTodos`, `listarTodas`, `buscarPorNome`, `listarEstoqueBaixo`, the report queries) are not part of the core.
- `CategoriaService.listarAtivas` is not part of this model; only the supplier list is.
- Null strings, prices and quantities are not modelled, except where the code distinguishes them with Option (`Produto?`, `Venda?`, a missing id, user, supplier or password). A null id passed to `desativar` or `findById` is modelled only for `atualizarEstoque`.
- Integers are unbounded. Java `int` overflow is not modelled in stock arithmetic (`quantidadeEstoque + quantidade`) or in `Math.abs(Integer.MIN_VALUE)`.
- `Integer.parseInt` range checks are modelled (`EntradaCaixa.ParseInt`).
- A discount percentage finer than 0.01% is not modelled. The percentage is held as whole hundredths of a percent, while `aplicarDesconto` stores and `recalcularTotais` multiplies by the exact `BigDecimal` typed in, which only the scale-2 column rounds when the sale is saved.
- Money is cents at scale 2, so a `BigDecimal` of any other scale is not modelled. `DecimalFormat`'s HALF_EVEN rounding never applies to an amount in cents.
- Non-ASCII digits, which `Integer.parseInt`, `\d` and `Character.isDigit` may accept, are not modelled. Only '0'-'9' count.
- `ItemCompra.java` is not part of this model. A receipt line's subtotal is taken as given.
- Formatador.ParseMoeda: its own contract states only that the result is never negative. The exact values are stated by the lemmas beside it (ParseFormatarPequeno, ParseFormatarGrande, MilharComVirgula, VirgulaDecimal).
- JavaFX dialogs, focus handling, table refresh and everything after the service call in `handleAdicionarProduto` are not modelled. The parse result stands for the dialog shown.
- Concurrency is not modelled. Every operation runs alone.

## Findings

| source | as written | input that shows it | evidently intended | confidence | as-written member | corrected member |
|---|---|---|---|---|---|---|
| src/main/java/com/supermercado/util/FormatadorUtil.java:67-76 | the ',' is turned into '.' before the step commented as removing thousands dots runs, and that step keeps dots, so a grouping dot stays beside the decimal point | "R$ 1.234,56" (the output of formatarMoeda for 123456 cents) becomes "1.234.56", which is a NumberFormatException, so the result is 0 | thousands dots are deleted and only the decimal separator becomes '.', so "R$ 1.234,56" reads as 1234.56 and every formatted amount reads back | high, not executed | Formatador.ParseFormatarGrande | Formatador.ParseFormatarCorrigido |
