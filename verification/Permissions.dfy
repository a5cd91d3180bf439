/** src/auth/permissions.ts: employer roles, what they may do, and whom they may manage. */
module Permissions {

  datatype Role = OWNER | ADMIN | HR | FINANCE | VIEWER

  datatype Permission =
    | EmployeeView
    | EmployeeManage
    | LoanView
    | LoanApprove
    | SettlementView
    | SettlementManage
    | ReportView
    | MemberView
    | MemberInvite
    | MemberManage
    | OrgSettingsView
    | OrgSettingsManage

  function GetPermissions(role: Role): set<Permission> {
    match role
    case OWNER =>
      {EmployeeView, EmployeeManage, LoanView, LoanApprove, SettlementView, SettlementManage, ReportView,
       MemberView, MemberInvite, MemberManage, OrgSettingsView, OrgSettingsManage}
    case ADMIN =>
      {EmployeeView, EmployeeManage, LoanView, LoanApprove, SettlementView, SettlementManage, ReportView,
       MemberView, MemberInvite, OrgSettingsView, OrgSettingsManage}
    case HR => {EmployeeView, EmployeeManage, LoanView, LoanApprove, ReportView, MemberView}
    case FINANCE => {EmployeeView, LoanView, SettlementView, SettlementManage, ReportView, MemberView}
    case VIEWER => {EmployeeView, LoanView, SettlementView, ReportView, MemberView}
  }

  predicate HasPermission(role: Role, permission: Permission) {
    permission in GetPermissions(role)
  }

  /** Who may do what, by permission: owners everything, administrators all but managing members. */
  lemma WhoMay(role: Role)
    ensures HasPermission(role, EmployeeView) && HasPermission(role, LoanView) && HasPermission(role, ReportView)
    ensures HasPermission(role, MemberView)
    ensures HasPermission(role, MemberManage) <==> role == OWNER
    ensures HasPermission(role, MemberInvite) <==> role == OWNER || role == ADMIN
    ensures HasPermission(role, OrgSettingsView) <==> role == OWNER || role == ADMIN
    ensures HasPermission(role, OrgSettingsManage) <==> role == OWNER || role == ADMIN
    ensures HasPermission(role, EmployeeManage) <==> role == OWNER || role == ADMIN || role == HR
    ensures HasPermission(role, LoanApprove) <==> role == OWNER || role == ADMIN || role == HR
    ensures HasPermission(role, SettlementView) <==> role != HR
    ensures HasPermission(role, SettlementManage) <==> role == OWNER || role == ADMIN || role == FINANCE
  {
  }

  function RoleRank(role: Role): nat {
    match role
    case OWNER => 5
    case ADMIN => 4
    case HR => 3
    case FINANCE => 3
    case VIEWER => 1
  }

  predicate CanManageRole(actor: Role, target: Role) {
    RoleRank(actor) > RoleRank(target)
  }
}
