/**
 * internal/errors: the service's numeric error codes, built from a biz type,
 * an error type and a custom code.
 *
 * The biz-type and error-type numbers come from pkg/retcode, which is not part
 * of this model; they are the fields of a `Retcodes` value here, so every
 * statement below holds whatever those numbers are.
 */
module ErrorCodes {

  import opened Errs

  datatype Retcodes = Retcodes(
    bizTypeBrowserExt: int,
    errorTypeParamsInvalid: int,
    errorTypeBusinessErr: int,
    errorTypeRPCFail: int)

  /** ErrorCode packs the three parts in decimal and converts to int32. Go computes
      the sum in 64-bit `int` first; as int32() keeps only the low 32 bits, which a
      64-bit wrap-around does not change, converting the exact sum is the same. */
  function ErrorCode(bizType: int, errorType: int, customCode: int): (r: int32)
    ensures (r as int - (bizType * 100000 + errorType * 1000 + customCode)) % 0x1_0000_0000 == 0
    ensures -0x8000_0000 <= bizType * 100000 + errorType * 1000 + customCode < 0x8000_0000 ==>
              r as int == bizType * 100000 + errorType * 1000 + customCode
  {
    ToInt32(bizType * 100000 + errorType * 1000 + customCode)
  }

  /** errorCode: an ErrorCode whose biz type is always the browser extension's. */
  function BizErrorCode(rc: Retcodes, errorType: int, customCode: int): (r: int)
    ensures r == ErrorCode(rc.bizTypeBrowserExt, errorType, customCode) as int
  {
    ErrorCode(rc.bizTypeBrowserExt, errorType, customCode) as int
  }

  function RequestParamInvalid(rc: Retcodes): int { BizErrorCode(rc, rc.errorTypeParamsInvalid, 1) }
  function InternalConfigErr(rc: Retcodes): int { BizErrorCode(rc, rc.errorTypeBusinessErr, 2) }
  function InternalError(rc: Retcodes): int { BizErrorCode(rc, rc.errorTypeRPCFail, 3) }
  function CallFail(rc: Retcodes): int { BizErrorCode(rc, rc.errorTypeRPCFail, 4) }

  /** The package's `Success` value: a business error with code 0. */
  const SuccessError: GoError := New(0, "Success.")

  lemma DivModConst(q: int, r: int, d: int)
    requires d == 1000 || d == 100000
    requires 0 <= r < d
    ensures (q * d + r) / d == q && (q * d + r) % d == r
  {
  }

  /** When the parts are in range and the code fits in 32 bits, division and
      remainder give back the biz type, the error type and the custom code. */
  lemma ErrorCodeDecompose(bizType: int, errorType: int, customCode: int)
    requires 0 <= bizType && 0 <= errorType < 100 && 0 <= customCode < 1000
    requires bizType * 100000 + errorType * 1000 + customCode < 0x8000_0000
    ensures var code := ErrorCode(bizType, errorType, customCode) as int;
            code / 100000 == bizType && (code % 100000) / 1000 == errorType && code % 1000 == customCode
  {
    var low := errorType * 1000 + customCode;
    var code := bizType * 100000 + low;
    assert ErrorCode(bizType, errorType, customCode) as int == code;
    DivModConst(bizType, low, 100000);
    DivModConst(errorType, customCode, 1000);
    assert code == (bizType * 100 + errorType) * 1000 + customCode;
    DivModConst(bizType * 100 + errorType, customCode, 1000);
  }

  /** errorCode always puts the browser-extension biz type in the leading digits. */
  lemma BizErrorCodeBizType(rc: Retcodes, errorType: int, customCode: int)
    requires 0 <= rc.bizTypeBrowserExt && 0 <= errorType < 100 && 0 <= customCode < 1000
    requires rc.bizTypeBrowserExt * 100000 + errorType * 1000 + customCode < 0x8000_0000
    ensures BizErrorCode(rc, errorType, customCode) / 100000 == rc.bizTypeBrowserExt
    ensures BizErrorCode(rc, errorType, customCode) % 1000 == customCode
  {
    ErrorCodeDecompose(rc.bizTypeBrowserExt, errorType, customCode);
  }

  /** InternalError and CallFail share their error type but not their custom code,
      so they differ whatever the retcode numbers, even after 32-bit wrap-around. */
  lemma InternalErrorIsNotCallFail(rc: Retcodes)
    ensures InternalError(rc) != CallFail(rc)
  {
    var x := rc.bizTypeBrowserExt * 100000 + rc.errorTypeRPCFail * 1000 + 3;
    var a := ErrorCode(rc.bizTypeBrowserExt, rc.errorTypeRPCFail, 3) as int;
    var b := ErrorCode(rc.bizTypeBrowserExt, rc.errorTypeRPCFail, 4) as int;
    assert (a - x) % 0x1_0000_0000 == 0;
    assert (b - (x + 1)) % 0x1_0000_0000 == 0;
  }
}
